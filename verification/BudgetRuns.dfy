/** Budgets under contention: every interleaving of any number of `reserve`,
    `release` and seeding calls, stepped at each get and save
    (services/payment/src/budgets.py). */
module BudgetRuns {
  import opened Wrappers
  import opened Runs
  import opened StateStore
  import opened CasLoop
  import opened CasMachine
  import opened Budgets

  datatype Request = ReserveOf(dept: string, amount: int) | ReleaseOf(dept: string, amount: int) | SeedOf(dept: string, cents: int)

  /** The loop a request runs; `amount` is positive because the source raises otherwise. */
  ghost predicate Performs(r: Request, call: Call<int, bool>) {
    call.key == Key(r.dept) &&
    match r
    case ReserveOf(_, amount) => amount > 0 && call.update == ReserveUpdate(amount)
    case ReleaseOf(_, amount) => amount > 0 && call.update == ReleaseUpdate(amount)
    case SeedOf(_, cents) => cents >= 0 && call.update == SeedUpdate(cents)
  }

  /** A trace in which call `p` runs request `requests[p]` and no budget is deleted. */
  ghost predicate OnlyRequests(trace: seq<Action<int, bool>>, requests: map<nat, Request>) {
    forall a | a in trace ::
      !a.DoDelete? && (a.Spawn? ==> a.p in requests && Performs(requests[a.p], a.call))
  }

  ghost predicate Requested(s: State<int, bool>, requests: map<nat, Request>) {
    && (forall p | p in s.procs :: p in requests && Performs(requests[p], s.procs[p].call))
    && (forall i | 0 <= i < |s.log| :: s.log[i].Commit? && s.log[i].p in requests && Performs(requests[s.log[i].p], s.log[i].call))
  }

  lemma {:induction false} RunStaysRequested(s: State<int, bool>, trace: seq<Action<int, bool>>, requests: map<nat, Request>)
    requires Requested(s, requests) && OnlyRequests(trace, requests) && Run(Step, s, trace).Some?
    ensures Requested(Run(Step, s, trace).value, requests)
    decreases |trace|
  {
    if trace != [] {
      assert trace[0] in trace;
      var t := Step(s, trace[0]).value;
      RunStaysRequested(t, trace[1..], requests);
    }
  }

  /** Committed reserves (`taken`) and releases (`given`) on `dept`, in cents. */
  ghost function Taken(log: seq<Op<int, bool>>, requests: map<nat, Request>, dept: string): int {
    if log == [] then 0
    else Taken(log[..|log| - 1], requests, dept) + match RequestAt(log[|log| - 1], requests)
      case Some(ReserveOf(d, amount)) => if d == dept then amount else 0
      case _ => 0
  }

  ghost function Given(log: seq<Op<int, bool>>, requests: map<nat, Request>, dept: string): int {
    if log == [] then 0
    else Given(log[..|log| - 1], requests, dept) + match RequestAt(log[|log| - 1], requests)
      case Some(ReleaseOf(d, amount)) => if d == dept then amount else 0
      case _ => 0
  }

  ghost function RequestAt(op: Op<int, bool>, requests: map<nat, Request>): Option<Request> {
    if op.Commit? && op.p in requests then Some(requests[op.p]) else None
  }

  /** The amount `dept` started from: what it held, or what the first seeding gave it. */
  ghost function Base(initial: Option<int>, log: seq<Op<int, bool>>, requests: map<nat, Request>, dept: string): int {
    if initial.Some? then initial.value
    else if log == [] then 0
    else
      var prev := log[..|log| - 1];
      if Fold(initial, prev, Key(dept)).Some? then Base(initial, prev, requests, dept)
      else match RequestAt(log[|log| - 1], requests)
        case Some(SeedOf(d, cents)) => if d == dept then cents else Base(initial, prev, requests, dept)
        case _ => Base(initial, prev, requests, dept)
  }

  ghost predicate AllRequested(log: seq<Op<int, bool>>, requests: map<nat, Request>) {
    forall i | 0 <= i < |log| :: log[i].Commit? && log[i].p in requests && Performs(requests[log[i].p], log[i].call)
  }

  /** Every commit replaced a value its update function accepted. */
  ghost predicate AllWrites(initial: Option<int>, log: seq<Op<int, bool>>, key: string) {
    forall i | 0 <= i < |log| && log[i].Commit? && log[i].call.key == key ::
      log[i].call.update(Fold(initial, log[..i], key)).Write?
  }

  /** The ledger of a log: what is left is the base minus the committed reserves plus
      the committed releases, and it is never negative. */
  lemma {:induction false} LedgerOfLog(initial: Option<int>, log: seq<Op<int, bool>>, requests: map<nat, Request>, dept: string)
    requires AllRequested(log, requests) && AllWrites(initial, log, Key(dept))
    requires initial.Some? ==> initial.value >= 0
    ensures match Fold(initial, log, Key(dept))
      case Some(left) =>
        left >= 0 && left == Base(initial, log, requests, dept) - Taken(log, requests, dept) + Given(log, requests, dept)
      case None => initial == None && Taken(log, requests, dept) == 0 == Given(log, requests, dept)
  {
    if log != [] {
      var prev := log[..|log| - 1];
      var op := log[|log| - 1];
      forall i | 0 <= i < |prev| && prev[i].Commit? && prev[i].call.key == Key(dept)
        ensures prev[i].call.update(Fold(initial, prev[..i], Key(dept))).Write?
      {
        assert log[i] == prev[i] && log[..i] == prev[..i];
      }
      LedgerOfLog(initial, prev, requests, dept);
      assert op.Commit? && Performs(requests[op.p], op.call);
      KeysDiffer(requests[op.p].dept, dept);
      if op.call.key == Key(dept) {
        assert op.call.update(Fold(initial, prev, Key(dept))).Write?;
      }
    }
  }

  /** Every commit of a run was a write of its call on the value it replaced. */
  lemma {:induction false} RunWrites(s0: State<int, bool>, trace: seq<Action<int, bool>>, key: string)
    requires CasMachine.Init(s0) && Run(Step, s0, trace).Some?
    ensures AllWrites(s0.store.Value(key), Run(Step, s0, trace).value.log, key)
  {
    RunKeepsInv(s0, trace);
    CommitsAreWrites(s0.store, s0, trace);
  }

  ghost predicate LogWrites(initial: Store<int>, s: State<int, bool>) {
    Inv(initial, s) && forall key :: AllWrites(initial.Value(key), s.log, key)
  }

  lemma {:induction false} CommitsAreWrites(initial: Store<int>, s: State<int, bool>, trace: seq<Action<int, bool>>)
    requires LogWrites(initial, s) && Run(Step, s, trace).Some?
    ensures LogWrites(initial, Run(Step, s, trace).value)
    decreases |trace|
  {
    if trace != [] {
      var t := Step(s, trace[0]).value;
      StepKeepsInv(initial, s, trace[0]);
      forall key ensures AllWrites(initial.Value(key), t.log, key) {
        StepWrites(initial, s, trace[0], key);
      }
      CommitsAreWrites(initial, t, trace[1..]);
    }
  }

  lemma StepWrites(initial: Store<int>, s: State<int, bool>, a: Action<int, bool>, key: string)
    requires LogWrites(initial, s) && Step(s, a).Some?
    ensures AllWrites(initial.Value(key), Step(s, a).value.log, key)
  {
    var t := Step(s, a).value;
    assert AllWrites(initial.Value(key), s.log, key);
    forall i | 0 <= i < |t.log| && t.log[i].Commit? && t.log[i].call.key == key
      ensures t.log[i].call.update(Fold(initial.Value(key), t.log[..i], key)).Write?
    {
      if i < |s.log| {
        assert t.log[i] == s.log[i] && t.log[..i] == s.log[..i];
      } else {
        assert t.log[..i] == s.log;
        assert ProcInv(initial, s, a.p);
        assert s.store.Value(key) == Fold(initial.Value(key), s.log, key);
      }
    }
  }

  /** Budgets are conserved and never negative in every interleaving; an answer True of
      `reserve` is exactly one committed debit, any other end of it debited nothing. */
  lemma BudgetLedger(s0: State<int, bool>, trace: seq<Action<int, bool>>, requests: map<nat, Request>, dept: string, p: nat)
    requires CasMachine.Init(s0) && Run(Step, s0, trace).Some? && OnlyRequests(trace, requests)
    requires s0.store.Value(Key(dept)).Some? ==> s0.store.Value(Key(dept)).value >= 0
    ensures var s := Run(Step, s0, trace).value;
      && (match s.store.Value(Key(dept))
          case Some(left) =>
            left >= 0 && left == Base(s0.store.Value(Key(dept)), s.log, requests, dept)
                                 - Taken(s.log, requests, dept) + Given(s.log, requests, dept)
          case None => Taken(s.log, requests, dept) == 0 == Given(s.log, requests, dept))
      && (p in s.procs ==> Commits(s.log, p) == if s.procs[p].pc.Returned? then 1 else 0)
  {
    var s := Run(Step, s0, trace).value;
    RunStaysRequested(s0, trace, requests);
    RunWrites(s0, trace, Key(dept));
    Linearizable(s0, trace, Key(dept), p);
    LedgerOfLog(s0.store.Value(Key(dept)), s.log, requests, dept);
  }

  /** Seeding again never changes a budget: once a budget is there, so is its base, for good. */
  lemma {:induction false} BaseIsStable(initial: Option<int>, log: seq<Op<int, bool>>, requests: map<nat, Request>, dept: string,
                                        i: nat, j: nat)
    requires AllRequested(log, requests) && AllWrites(initial, log, Key(dept)) && i <= j <= |log|
    requires Fold(initial, log[..i], Key(dept)).Some?
    ensures Fold(initial, log[..j], Key(dept)).Some?
    ensures Base(initial, log[..j], requests, dept) == Base(initial, log[..i], requests, dept)
    decreases j
  {
    if i < j {
      BaseIsStable(initial, log, requests, dept, i, j - 1);
      assert log[..j][..|log[..j]| - 1] == log[..j - 1];
    }
  }

  /** Between two moments of a run without a release in between, the first with a budget to take
      from, the committed reserves take no more than what was left: two reserves that together exceed it cannot both succeed. */
  lemma NoOverspend(s0: State<int, bool>, trace: seq<Action<int, bool>>, requests: map<nat, Request>, dept: string, i: nat, j: nat)
    requires CasMachine.Init(s0) && Run(Step, s0, trace).Some? && OnlyRequests(trace, requests)
    requires s0.store.Value(Key(dept)).Some? ==> s0.store.Value(Key(dept)).value >= 0
    requires var log := Run(Step, s0, trace).value.log;
      i <= j <= |log| && Fold(s0.store.Value(Key(dept)), log[..i], Key(dept)).Some? && Given(log[..i], requests, dept) == Given(log[..j], requests, dept)
    ensures var log := Run(Step, s0, trace).value.log;
      Taken(log[..j], requests, dept) - Taken(log[..i], requests, dept)
         <= Fold(s0.store.Value(Key(dept)), log[..i], Key(dept)).value
  {
    var initial := s0.store.Value(Key(dept));
    var log := Run(Step, s0, trace).value.log;
    RunStaysRequested(s0, trace, requests);
    RunWrites(s0, trace, Key(dept));
    PrefixWrites(initial, log, Key(dept), i);
    PrefixWrites(initial, log, Key(dept), j);
    LedgerOfLog(initial, log[..i], requests, dept);
    LedgerOfLog(initial, log[..j], requests, dept);
    BaseIsStable(initial, log, requests, dept, i, j);
  }

  /** What is committed for one department leaves what every other department holds. */
  lemma OtherDepartmentKeepsIts(initial: Option<int>, log: seq<Op<int, bool>>, op: Op<int, bool>, r: Request, other: string)
    requires op.Commit? && Performs(r, op.call) && r.dept != other
    ensures Fold(initial, log + [op], Key(other)) == Fold(initial, log, Key(other))
  {
    KeysDiffer(r.dept, other);
    assert (log + [op])[..|log + [op]| - 1] == log;
  }

  lemma PrefixWrites(initial: Option<int>, log: seq<Op<int, bool>>, key: string, n: nat)
    requires AllWrites(initial, log, key) && n <= |log|
    ensures AllWrites(initial, log[..n], key)
  {
    forall k | 0 <= k < n && log[k].Commit? && log[k].call.key == key
      ensures log[..n][k].call.update(Fold(initial, log[..n][..k], key)).Write?
    {
      assert log[..n][..k] == log[..k];
    }
  }
}
