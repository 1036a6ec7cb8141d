/** What the steps of the approval service keep, and exactly which of them do not. */
module ApprovalSafety {
  import opened Wrappers
  import opened Collections
  import opened Runs
  import opened Approval

  ghost predicate IsPending(s: State, i: string) {
    i in s.records && s.records[i].status.Pending?
  }

  /** Something will still put `i` in front of the approvers, or its loss was logged or is a kill. */
  ghost predicate Covered(s: State, i: string) {
    || (exists c :: c in s.verdicts && s.verdicts[c].v.i == i && s.verdicts[c].pc.Requeueing?)
    || (exists c :: Working(s, c, i))
    || (exists id :: id in s.owed && id in s.sent && s.sent[id].invoice == i)
    || i in s.loud || i in s.unforgotten || i in s.killed
  }

  /** A delivery for `i` that has not yet decided that nothing is to be done. */
  ghost predicate Working(s: State, c: nat, i: string) {
    && c in s.deliveries && s.deliveries[c].id in s.sent && s.sent[s.deliveries[c].id].invoice == i
    && !s.deliveries[c].pc.Reopening?
  }

  ghost predicate QueueOk(s: State, i: string) {
    IsPending(s, i) ==> i in s.queue || Covered(s, i)
  }

  /** A call that holds `i` wrote what the record says, and it is alone. */
  ghost predicate HolderOk(s: State, c: nat) {
    c in s.verdicts && !s.verdicts[c].pc.Requeueing? ==>
      var v := s.verdicts[c].v;
      && v.i in s.records && s.records[v.i] == s.verdicts[c].resolved && !s.records[v.i].status.Pending?
      && forall d :: Holds(s, d, v.i) ==> d == c
  }

  ghost predicate HoldersOk(s: State) {
    forall c :: HolderOk(s, c)
  }

  /** The last successful publish for `i`. */
  ghost function LastPublished(p: seq<Resolution>, i: string): Option<Resolution> {
    if p == [] then None
    else if p[|p| - 1].i == i then Some(p[|p| - 1])
    else LastPublished(p[..|p| - 1], i)
  }

  ghost function Publishes(p: seq<Resolution>, i: string): nat {
    if p == [] then 0 else Publishes(p[..|p| - 1], i) + if p[|p| - 1].i == i then 1 else 0
  }

  ghost function Reopens(r: seq<string>, i: string): nat {
    if r == [] then 0 else Reopens(r[..|r| - 1], i) + if r[|r| - 1] == i then 1 else 0
  }

  /** Resolved and through with its publish or rollback. */
  ghost predicate Settled(s: State, i: string) {
    i in s.records && !s.records[i].status.Pending? && !InFlight(s, i)
  }

  ghost predicate DeliveredOk(s: State, i: string) {
    Settled(s, i) && i !in s.loud && i !in s.killed ==>
      LastPublished(s.published, i) == Some(ResolutionOf(i, s.records[i]))
  }

  /** How a step moves verdict call `c`: other calls stay, its own follows the handler. */
  ghost predicate CallMoves(s: State, a: Action, t: State, c: nat) {
    var was, now := Lookup(s.verdicts, c), Lookup(t.verdicts, c);
    if a.c != c then now == was
    else match a
      case SubmitVerdict(_, v) =>
        || now == was
        || (was.None? && !v.status.Pending? && IsPending(s, v.i)
            && now == Some(VerdictCall(v, Resolve(s.records[v.i], v).value, Publishing))
            && t.records == s.records[v.i := Resolve(s.records[v.i], v).value])
      case PublishOk(_) => was.Some? && was.value.pc.Publishing? && now == Some(was.value.(pc := Dequeuing))
      case PublishFail(_) => was.Some? && was.value.pc.Publishing? && now == Some(was.value.(pc := Reverting))
      case PublishUnacked(_) => was.Some? && was.value.pc.Publishing? && now == Some(was.value.(pc := Reverting))
      case Revert(_) => was.Some? && was.value.pc.Reverting? && now == Some(was.value.(pc := Requeueing))
      case Requeue(_) => was.Some? && was.value.pc.Requeueing? && now.None?
      case RollbackFail(_) => was.Some? && (was.value.pc.Reverting? || was.value.pc.Requeueing?) && now.None?
      case Dequeue(_) => was.Some? && was.value.pc.Dequeuing? && now.None?
      case DequeueFail(_) => was.Some? && was.value.pc.Dequeuing? && now.None?
      case KillVerdict(_) => was.Some? && now.None?
      case _ => now == was
  }

  lemma StepMovesCalls(s: State, a: Action, c: nat)
    requires Step(s, a).Some?
    ensures CallMoves(s, a, Step(s, a).value, c)
  {
  }

  /** How a step moves delivery `c`. */
  ghost predicate DeliveryMoves(s: State, a: Action, t: State, c: nat) {
    var was, now := Lookup(s.deliveries, c), Lookup(t.deliveries, c);
    if a.c != c then now == was
    else match a
      case Deliver(_, id) => now == was || (was.None? && now == Some(Delivery(id, Saving)) && id in s.sent)
      case DeliveryStep(_) => was.Some? && (now.Some? ==> now.value.id == was.value.id)
      case DeliveryFail(_) => was.Some? && now == Some(was.value.(pc := Forgetting))
      case Forget(_) => was.Some? && now.None? && was.value.id in t.owed
      case ForgetFail(_) => was.Some? && now.None? && was.value.id in s.sent && s.sent[was.value.id].invoice in t.unforgotten
      case KillDelivery(_) => was.Some? && now.None? && was.value.id in s.sent && s.sent[was.value.id].invoice in t.killed
      case _ => now == was
  }

  predicate OfDelivery(a: Action) {
    a.Deliver? || a.DeliveryStep? || a.DeliveryFail? || a.Forget? || a.ForgetFail? || a.KillDelivery?
  }

  lemma DeliveryStepMoves(s: State, a: Action, c: nat)
    requires Step(s, a).Some? && OfDelivery(a)
    ensures DeliveryMoves(s, a, Step(s, a).value, c) && Step(s, a).value.sent == s.sent
  {
    hide OnVerdict;
  }

  /** Verdict and eviction steps leave the deliveries alone. */
  lemma OthersLeaveDeliveries(s: State, a: Action)
    requires Step(s, a).Some?
    requires !OfDelivery(a)
    ensures Step(s, a).value.deliveries == s.deliveries && Step(s, a).value.sent == s.sent
  {
  }

  lemma StepMovesDeliveries(s: State, a: Action, c: nat)
    requires Step(s, a).Some?
    ensures DeliveryMoves(s, a, Step(s, a).value, c) && Step(s, a).value.sent == s.sent
  {
    hide Step;
    if OfDelivery(a) {
      DeliveryStepMoves(s, a, c);
    } else {
      OthersLeaveDeliveries(s, a);
    }
  }

  // ----- the queue

  lemma RequeueingLasts(s: State, a: Action, i: string, c: nat)
    requires Step(s, a).Some?
    requires c in s.verdicts && s.verdicts[c].v.i == i && s.verdicts[c].pc.Requeueing?
    ensures var t := Step(s, a).value; IsPending(t, i) ==> i in t.queue || Covered(t, i)
  {
    var t := Step(s, a).value;
    StepMovesCalls(s, a, c);
    if a == Requeue(c) || a == RollbackFail(c) || a == KillVerdict(c) {
      assert i in t.queue || i in t.loud || i in t.killed;
    } else {
      hide Step;
      assert t.verdicts[c] == s.verdicts[c];
    }
  }

  lemma WorkingStepLasts(s: State, i: string, c: nat)
    requires Step(s, DeliveryStep(c)).Some? && Working(s, c, i)
    ensures var t := Step(s, DeliveryStep(c)).value; IsPending(t, i) ==> i in t.queue || Working(t, c, i)
  {
  }

  lemma OthersKeepWorking(s: State, a: Action, i: string, c: nat)
    requires Step(s, a).Some? && Working(s, c, i) && a != DeliveryStep(c)
    ensures var t := Step(s, a).value; var id := s.deliveries[c].id;
      t.sent == s.sent && (Working(t, c, i) || id in t.owed || i in t.unforgotten || i in t.killed)
  {
    StepMovesDeliveries(s, a, c);
    hide Step;
  }

  lemma WorkingLasts(s: State, a: Action, i: string, c: nat)
    requires Step(s, a).Some? && Working(s, c, i)
    ensures var t := Step(s, a).value; IsPending(t, i) ==> i in t.queue || Covered(t, i)
  {
    hide Step;
    if a == DeliveryStep(c) {
      WorkingStepLasts(s, i, c);
    } else {
      OthersKeepWorking(s, a, i, c);
    }
  }

  lemma OwedLasts(s: State, a: Action, i: string, id: string)
    requires Step(s, a).Some? && id in s.owed && id in s.sent && s.sent[id].invoice == i
    ensures Covered(Step(s, a).value, i)
  {
    var t := Step(s, a).value;
    if a.Deliver? && id !in t.owed {
      assert Working(t, a.c, i);
    } else {
      assert id in t.owed && t.sent[id].invoice == i;
    }
  }

  /** A cover lasts until the invoice is queued or the record is no longer pending. */
  lemma CoverLasts(s: State, a: Action, i: string)
    requires Step(s, a).Some? && Covered(s, i)
    ensures var t := Step(s, a).value; IsPending(t, i) ==> i in t.queue || Covered(t, i)
  {
    if c :| c in s.verdicts && s.verdicts[c].v.i == i && s.verdicts[c].pc.Requeueing? {
      RequeueingLasts(s, a, i, c);
    } else if c :| Working(s, c, i) {
      WorkingLasts(s, a, i, c);
    } else if id :| id in s.owed && id in s.sent && s.sent[id].invoice == i {
      OwedLasts(s, a, i, id);
    }
  }

  /** The step takes `i` out of the queue. */
  ghost predicate Removes(s: State, a: Action, i: string) {
    || (a.EvictWrite? && a.c in s.evictions && s.evictions[a.c] == i)
    || (a.Dequeue? && a.c in s.verdicts && s.verdicts[a.c].v.i == i)
  }

  /** The step takes `i` out of the queue while it is pending and nothing will put it back. */
  ghost predicate Strands(s: State, a: Action, i: string) {
    IsPending(s, i) && !Covered(s, i) && Removes(s, a, i)
  }

  lemma RemovalAddsNoCover(s: State, a: Action, i: string)
    requires Step(s, a).Some? && (a.EvictWrite? || a.Dequeue?) && Covered(Step(s, a).value, i)
    ensures Covered(s, i)
  {
    var t := Step(s, a).value;
    if c :| c in t.verdicts && t.verdicts[c].v.i == i && t.verdicts[c].pc.Requeueing? {
      assert c in s.verdicts && s.verdicts[c] == t.verdicts[c];
    } else if c :| Working(t, c, i) {
      assert Working(s, c, i);
    }
  }

  lemma RemovalBreaksIff(s: State, a: Action, i: string)
    requires NoRepeats(s.queue) && QueueOk(s, i) && !Covered(s, i) && Step(s, a).Some? && (a.EvictWrite? || a.Dequeue?)
    ensures !QueueOk(Step(s, a).value, i) <==> Strands(s, a, i)
  {
    RemoveIsExact(s.queue, if a.EvictWrite? then s.evictions[a.c] else s.verdicts[a.c].v.i);
    if Covered(Step(s, a).value, i) { RemovalAddsNoCover(s, a, i); }
    hide Covered;
  }

  lemma RevertCovers(s: State, c: nat, i: string)
    requires QueueOk(s, i) && !Covered(s, i) && Step(s, Revert(c)).Some?
    ensures QueueOk(Step(s, Revert(c)).value, i)
  {
    var t := Step(s, Revert(c)).value;
    if s.verdicts[c].v.i == i {
      assert t.verdicts[c].v.i == i && t.verdicts[c].pc.Requeueing?;
    }
  }

  lemma OtherKeepsQueue(s: State, a: Action, i: string)
    requires QueueOk(s, i) && !Covered(s, i) && Step(s, a).Some? && !a.EvictWrite? && !a.Dequeue? && !a.Revert?
    ensures var t := Step(s, a).value; IsPending(t, i) ==> i in t.queue || (a.DeliveryStep? && Working(t, a.c, i))
  {
    hide Covered;
  }

  /** Exactly when a step, of any run whatever, breaks the queue guarantee. */
  lemma QueueBreaksIff(s: State, a: Action, i: string)
    requires NoRepeats(s.queue) && QueueOk(s, i) && Step(s, a).Some?
    ensures !QueueOk(Step(s, a).value, i) <==> Strands(s, a, i)
  {
    hide Step;
    if Covered(s, i) {
      CoverLasts(s, a, i);
    } else if a.EvictWrite? || a.Dequeue? {
      RemovalBreaksIff(s, a, i);
    } else if a.Revert? {
      RevertCovers(s, a.c, i);
    } else {
      OtherKeepsQueue(s, a, i);
    }
  }

  /** Where verdict calls hold their records alone, only stale evictions strand. */
  lemma OnlyStaleEvictionsStrand(s: State, a: Action, i: string)
    requires HoldersOk(s) && Step(s, a).Some?
    ensures Strands(s, a, i) ==> StaleEviction(s, a)
  {
    if a.Dequeue? { assert HolderOk(s, a.c); }
  }

  lemma QueueHasNoRepeats(s: State, a: Action)
    requires NoRepeats(s.queue) && Step(s, a).Some?
    ensures NoRepeats(Step(s, a).value.queue)
  {
    match a
    case EvictWrite(c) => RemoveIsExact(s.queue, s.evictions[c]);
    case Dequeue(c) => RemoveIsExact(s.queue, s.verdicts[c].v.i);
    case _ =>
  }

  /** The queue has no repeats in any run. */
  lemma RunHasNoRepeats(s0: State, trace: seq<Action>)
    requires NoRepeats(s0.queue) && Run(Step, s0, trace).Some?
    ensures NoRepeats(Run(Step, s0, trace).value.queue)
  {
    var inv := (x: State) => NoRepeats(x.queue);
    forall x, a | inv(x) && Step(x, a).Some? ensures inv(Step(x, a).value) {
      QueueHasNoRepeats(x, a);
    }
    InvariantOfRun(Step, inv, s0, trace);
  }

  // ----- the holders

  /** The step is that of a delivery for `i`. */
  ghost predicate Handles(s: State, a: Action, i: string) {
    a.DeliveryStep? && a.c in s.deliveries && s.deliveries[a.c].id in s.sent && s.sent[s.deliveries[a.c].id].invoice == i
  }

  /** What a step can do to a record. */
  lemma RecordMoves(s: State, a: Action, i: string)
    requires Step(s, a).Some?
    ensures var t := Step(s, a).value;
      && (i in s.records ==> i in t.records)
      && (i in t.records && (i !in s.records || t.records[i] != s.records[i]) ==>
            || (a.SubmitVerdict? && a.v.i == i && IsPending(s, i) && InFlight(t, i))
            || (a.Revert? && a.c in s.verdicts && s.verdicts[a.c].v.i == i && s.verdicts[a.c].pc.Reverting? && IsPending(t, i))
            || (Handles(s, a, i) && IsPending(t, i)
                && (i in s.records ==> s.records[i].status.NeedsInfo? && s.deliveries[a.c].pc.Reopening? && t.reopens == s.reopens + [i])))
  {
    var t := Step(s, a).value;
    if a.SubmitVerdict? && t != s {
      assert t.verdicts[a.c].v.i == a.v.i && t.verdicts[a.c].pc.Publishing?;
    }
  }

  lemma HoldersStayOk(s: State, a: Action, c: nat)
    requires HoldersOk(s) && Step(s, a).Some? && !ReopensUnderVerdict(s, a)
    ensures HolderOk(Step(s, a).value, c)
  {
    var t := Step(s, a).value;
    if c in t.verdicts && !t.verdicts[c].pc.Requeueing? {
      var i := t.verdicts[c].v.i;
      StepMovesCalls(s, a, c);
      RecordMoves(s, a, i);
      assert HolderOk(s, c);
      assert c in s.verdicts ==> Holds(s, c, i);
      if a.Revert? && a.c in s.verdicts { assert Holds(s, a.c, s.verdicts[a.c].v.i); }
      forall d | Holds(t, d, i) ensures d == c {
        StepMovesCalls(s, a, d);
        assert HolderOk(s, d);
        assert d in s.verdicts ==> Holds(s, d, i);
      }
    }
  }

  // ----- delivery of resolutions

  lemma PublishAppends(p: seq<Resolution>, r: Resolution, i: string)
    ensures LastPublished(p + [r], i) == if r.i == i then Some(r) else LastPublished(p, i)
    ensures Publishes(p + [r], i) == Publishes(p, i) + if r.i == i then 1 else 0
  {
    assert (p + [r])[..|p + [r]| - 1] == p;
  }

  lemma ReopenAppends(r: seq<string>, j: string, i: string)
    ensures Reopens(r + [j], i) == Reopens(r, i) + if j == i then 1 else 0
  {
    assert (r + [j])[..|r + [j]| - 1] == r;
  }

  /** Without a call in flight for `i`, only a resolution puts one in flight. */
  lemma FlightStarts(s: State, a: Action, i: string)
    requires Step(s, a).Some? && !InFlight(s, i) && InFlight(Step(s, a).value, i)
    ensures a.SubmitVerdict? && a.v.i == i && IsPending(s, i)
  {
    hide Step;
    var t := Step(s, a).value;
    var c :| c in t.verdicts && t.verdicts[c].v.i == i && (t.verdicts[c].pc.Publishing? || t.verdicts[c].pc.Reverting?);
    StepMovesCalls(s, a, c);
  }

  /** The calls of `i` between resolution and the end of their publish or rollback. */
  ghost function Flights(s: State, i: string): set<nat> {
    set c | c in s.verdicts && s.verdicts[c].v.i == i && (s.verdicts[c].pc.Publishing? || s.verdicts[c].pc.Reverting?)
  }

  /** The step lands the flight of its call. */
  ghost predicate Lands(s: State, a: Action, i: string) {
    a.c in Flights(s, i) && (a.PublishOk? || a.Revert? || a.RollbackFail? || a.KillVerdict?)
  }

  /** The step resolves `i`. */
  ghost predicate Resolves(s: State, a: Action, i: string) {
    a.SubmitVerdict? && a.v.i == i && IsPending(s, i)
  }

  lemma FlightsMove(s: State, a: Action, i: string)
    requires Step(s, a).Some?
    ensures var t := Step(s, a).value;
      Flights(t, i) == if Resolves(s, a, i) then Flights(s, i) + {a.c}
                       else if Lands(s, a, i) then Flights(s, i) - {a.c} else Flights(s, i)
    ensures Resolves(s, a, i) ==> a.c !in Flights(s, i)
  {
    var t := Step(s, a).value;
    if a.SubmitVerdict? { ResolvesStarts(s, a); }
    forall c ensures c in Flights(t, i) <==>
      (c in Flights(s, i) && !(c == a.c && Lands(s, a, i))) || (c == a.c && Resolves(s, a, i))
    {
      StepMovesCalls(s, a, c);
      hide Step;
    }
  }

  lemma ResolvesStarts(s: State, a: Action)
    requires Step(s, a).Some? && a.SubmitVerdict?
    ensures var t := Step(s, a).value;
      if IsPending(s, a.v.i) then a.c !in s.verdicts && a.c in t.verdicts && t.verdicts[a.c].v == a.v && t.verdicts[a.c].pc.Publishing?
      else t == s
  {
  }

  /** What a step does to the history of `i`. */
  lemma HistoryMoves(s: State, a: Action, i: string)
    requires Step(s, a).Some?
    ensures var t := Step(s, a).value;
      && (if a.PublishOk? then
            a.c in s.verdicts && s.verdicts[a.c].pc.Publishing? && t.records == s.records
            && t.published == s.published + [ResolutionOf(s.verdicts[a.c].v.i, s.verdicts[a.c].resolved)]
          else t.published == s.published)
      && (t.reopens == s.reopens || exists j :: Handles(s, a, j) && t.reopens == s.reopens + [j])
      && (i in t.loud <==> i in s.loud || (a.RollbackFail? && a.c in s.verdicts && s.verdicts[a.c].v.i == i))
      && (i in s.killed ==> i in t.killed)
      && (a.KillVerdict? && a.c in s.verdicts && s.verdicts[a.c].v.i == i ==> i in t.killed)
  {
    if a.DeliveryStep? {
      assert Handles(s, a, s.sent[s.deliveries[a.c].id].invoice);
    }
  }

  // ----- resolved means delivered

  /** The step acknowledges the resolution of the only call of `i` in flight, and the record of `i`
      says something else by then. */
  ghost predicate Misdelivers(s: State, a: Action, i: string) {
    && a.PublishOk? && Flights(s, i) == {a.c}
    && i in s.records && !s.records[i].status.Pending? && i !in s.loud && i !in s.killed
    && a.c in s.verdicts && ResolutionOf(i, s.verdicts[a.c].resolved) != ResolutionOf(i, s.records[i])
  }

  lemma FlightsAre(s: State, i: string)
    ensures InFlight(s, i) <==> Flights(s, i) != {}
  {
    if c :| c in Flights(s, i) { assert InFlight(s, i); }
    if InFlight(s, i) {
      var c :| c in s.verdicts && s.verdicts[c].v.i == i && (s.verdicts[c].pc.Publishing? || s.verdicts[c].pc.Reverting?);
      assert c in Flights(s, i);
    }
  }

  lemma KilledMoves(s: State, a: Action, i: string)
    requires Step(s, a).Some? && i in Step(s, a).value.killed && i !in s.killed
    ensures a.KillVerdict? || a.KillDelivery?
  {
  }

  /** Exactly when a step, of any run whatever, breaks "resolved means delivered". */
  lemma DeliveryBreaksIff(s: State, a: Action, i: string)
    requires DeliveredOk(s, i) && Step(s, a).Some?
    ensures !DeliveredOk(Step(s, a).value, i) <==> Misdelivers(s, a, i)
  {
    var t := Step(s, a).value;
    RecordMoves(s, a, i);
    FlightsMove(s, a, i);
    HistoryMoves(s, a, i);
    FlightsAre(s, i);
    FlightsAre(t, i);
    if i in t.killed && i !in s.killed { KilledMoves(s, a, i); }
    hide Step;
    if a.PublishOk? {
      var call := s.verdicts[a.c];
      PublishAppends(s.published, ResolutionOf(call.v.i, call.resolved), i);
      assert call.v.i == i ==> a.c in Flights(s, i);
    }
    hide LastPublished, ResolutionOf, Flights, InFlight;
  }

  /** Where verdict calls hold their records alone, none does. */
  lemma HoldersNeverMisdeliver(s: State, a: Action, i: string)
    requires HoldersOk(s)
    ensures !Misdelivers(s, a, i)
  {
    if a.PublishOk? {
      assert HolderOk(s, a.c);
      assert a.c in Flights(s, i) ==> s.verdicts[a.c].v.i == i;
    }
  }

  // ----- how often a resolution is acknowledged

  /** Acknowledged publishes of `i`, calls that may still add one, and the verdict still to come. */
  ghost predicate CountOk(s: State, i: string) {
    Publishes(s.published, i) + |Flights(s, i)| + (if i !in s.records || s.records[i].status.Pending? then 1 else 0)
    <= 1 + Reopens(s.reopens, i)
  }

  lemma CountStaysOk(s: State, a: Action, i: string)
    requires CountOk(s, i) && Step(s, a).Some?
    ensures CountOk(Step(s, a).value, i)
  {
    var t := Step(s, a).value;
    RecordMoves(s, a, i);
    FlightsMove(s, a, i);
    HistoryMoves(s, a, i);
    if Resolves(s, a, i) { ResolvesRecord(s, a); }
    hide Step;
    if a.PublishOk? {
      var call := s.verdicts[a.c];
      PublishAppends(s.published, ResolutionOf(call.v.i, call.resolved), i);
      assert call.v.i == i ==> a.c in Flights(s, i);
    }
    if a.Revert? && a.c in s.verdicts && s.verdicts[a.c].v.i == i && s.verdicts[a.c].pc.Reverting? {
      assert a.c in Flights(s, i);
    }
    if t.reopens != s.reopens {
      var j :| Handles(s, a, j) && t.reopens == s.reopens + [j];
      ReopenAppends(s.reopens, j, i);
    }
    hide Publishes, Reopens, Flights;
  }

  lemma ResolvesRecord(s: State, a: Action)
    requires Step(s, a).Some? && a.SubmitVerdict? && IsPending(s, a.v.i)
    ensures var t := Step(s, a).value; a.v.i in t.records && !t.records[a.v.i].status.Pending?
  {
  }
}
