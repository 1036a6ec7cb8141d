/** The department budgets (services/payment/src/budgets.py). */
module Budgets {
  import opened Wrappers
  import opened StateStore
  import opened CasLoop

  function Key(dept: string): string {
    "budget:" + dept
  }

  /** Two departments have two budgets. */
  lemma KeysDiffer(a: string, b: string)
    ensures Key(a) == Key(b) ==> a == b
  {
    assert Key(a)[7..] == a && Key(b)[7..] == b;
  }

  /** `reserve`: take `amount` off, or answer False on an unknown or insufficient budget. */
  function ReserveUpdate(amount: int): Option<int> -> Decision<int, bool> {
    (v: Option<int>) =>
      if v.None? || v.value < amount then Stop(false) else Write(v.value - amount)
  }

  /** `release`: add `amount` back; an unknown department is left alone. */
  function ReleaseUpdate(amount: int): Option<int> -> Decision<int, bool> {
    (v: Option<int>) => if v.None? then Stop(true) else Write(v.value + amount)
  }

  /** `try_register` of the starting budget, read as a loop of one attempt. */
  function SeedUpdate(cents: int): Option<int> -> Decision<int, bool> {
    (v: Option<int>) => if v.Some? then Stop(false) else Write(cents)
  }

  datatype Outcome = Answer(ok: bool) | InvalidAmount | CasConflict

  /** A registration of a missing department with its starting budget. */
  ghost predicate IsSeeding(c: Change<int>, seeds: seq<(string, int)>) {
    c.before.None? && exists j :: 0 <= j < |seeds| && c.key == Key(seeds[j].0) && c.after == Some(seeds[j].1)
  }

  /** This task wrote nothing but registrations, so no existing budget was reset. */
  ghost predicate OnlySeeds(m: seq<Change<int>>, seeds: seq<(string, int)>) {
    forall c | c in m && c.own :: IsSeeding(c, seeds)
  }

  lemma OnlySeedsGrows(l0: seq<Change<int>>, m: seq<Change<int>>, foreign: seq<Change<int>>, mine: seq<Change<int>>, seeds: seq<(string, int)>, j: nat)
    requires OnlySeeds(m, seeds) && NoneOwn(foreign) && j < |seeds|
    requires mine == [] || mine == [Change(Key(seeds[j].0), None, Some(seeds[j].1), true)]
    ensures OnlySeeds(m + (foreign + mine), seeds)
    ensures l0 + m + foreign + mine == l0 + (m + (foreign + mine))
  {
    forall c | c in m + (foreign + mine) && c.own ensures IsSeeding(c, seeds) {
      if c !in m { assert c in mine; }
    }
  }

  /** The caller's one write replaced `held` by `left`. */
  ghost predicate Written(oldLog: seq<Change<int>>, log: seq<Change<int>>, foreign: seq<Change<int>>,
                          key: string, held: int, left: int)
  {
    log == oldLog + foreign + [Change(key, Some(held), Some(left), true)]
  }

  /** What one call did to the budget under `key` between `oldLog` and `log`: an answer
      True is the caller's one write, and it moved the amount then held by `delta`; an
      answer False wrote nothing and `refused` holds of the amount now held; a conflict
      wrote nothing and blames ten foreign writes to this very budget. */
  ghost predicate Effect(oldLog: seq<Change<int>>, log: seq<Change<int>>, now: Store<int>, foreign: seq<Change<int>>,
                         key: string, delta: int, refused: Option<int> -> bool, r: Outcome)
  {
    NoneOwn(foreign) &&
    match r
    case Answer(true) =>
      exists held: int, left: int ::
        Written(oldLog, log, foreign, key, held, left) && left == held + delta && !refused(Some(held))
    case Answer(false) => log == oldLog + foreign && refused(now.Value(key))
    case InvalidAmount => false
    case CasConflict => log == oldLog + foreign && Hits(foreign, key) >= 10
  }

  /** A call for one department writes no other department's budget. */
  lemma OthersUntouched(oldLog: seq<Change<int>>, log: seq<Change<int>>, now: Store<int>, foreign: seq<Change<int>>,
                        dept: string, delta: int, refused: Option<int> -> bool, r: Outcome, other: string)
    requires Effect(oldLog, log, now, foreign, Key(dept), delta, refused, r) && other != dept
    ensures Hits(log, Key(other)) == Hits(oldLog, Key(other)) + Hits(foreign, Key(other))
  {
    KeysDiffer(dept, other);
    HitsAppend(oldLog, foreign, Key(other));
    if r == Answer(true) {
      var c := log[|log| - 1];
      assert log[..|log| - 1] == oldLog + foreign;
    }
  }

  lemma EffectOfAttempt<E>(
    oldLog: seq<Change<int>>, log: seq<Change<int>>, now: Store<int>, foreign: seq<Change<int>>, key: string,
    delta: int, refused: Option<int> -> bool, update: Option<int> -> Decision<int, E>, r: CasResult<int, E>)
    requires Linearized(oldLog, log, now, foreign, key, update, MAX_RETRIES, r) && !r.Exhausted?
    requires forall v :: match update(v)
                         case Write(w) => v.Some? && w == v.value + delta && !refused(v)
                         case Stop(_) => refused(v)
    ensures Effect(oldLog, log, now, foreign, key, delta, refused, Answer(r.Committed?))
  {
    if r.Committed? {
      var c := log[|log| - 1];
      assert update(c.before) == Write(r.value);
      assert c == Change(key, Some(c.before.value), Some(c.before.value + delta), true);
      assert Written(oldLog, log, foreign, key, c.before.value, c.before.value + delta);
    }
  }

  /** Why `reserve` refuses: no such department, or not enough left. */
  function Refuses(amount: int): Option<int> -> bool {
    (v: Option<int>) => v.None? || v.value < amount
  }

  /** What the answers of `reserve` mean: True is one write that takes the amount out of at least as
      much, False is that there is too little or no such department. */
  lemma ReserveMeans(oldLog: seq<Change<int>>, log: seq<Change<int>>, now: Store<int>, foreign: seq<Change<int>>,
                     dept: string, amount: int, ok: bool) returns (held: int, left: int)
    requires Effect(oldLog, log, now, foreign, Key(dept), -amount, Refuses(amount), Answer(ok))
    ensures ok ==> amount <= held && left == held - amount && Written(oldLog, log, foreign, "budget:" + dept, held, left)
    ensures !ok ==>
      log == oldLog + foreign && (now.Value("budget:" + dept).None? || now.Value("budget:" + dept).value < amount)
  {
    held, left := 0, 0;
    if ok {
      held, left :| Written(oldLog, log, foreign, Key(dept), held, left) && left == held + -amount && !Refuses(amount)(Some(held));
    }
    hide Written;
  }

  /** And those of `release`: True is one write that adds the amount, False is no such department. */
  lemma ReleaseMeans(oldLog: seq<Change<int>>, log: seq<Change<int>>, now: Store<int>, foreign: seq<Change<int>>,
                     dept: string, amount: int, ok: bool) returns (held: int, left: int)
    requires Effect(oldLog, log, now, foreign, Key(dept), amount, (v: Option<int>) => v.None?, Answer(ok))
    ensures ok ==> left == held + amount && Written(oldLog, log, foreign, "budget:" + dept, held, left)
    ensures !ok ==> log == oldLog + foreign && now.Value("budget:" + dept).None?
  {
    held, left := 0, 0;
    if ok {
      held, left :| Written(oldLog, log, foreign, Key(dept), held, left) && left == held + amount;
    }
    hide Written;
  }

  class BudgetStore {
    const s: YieldingStateStore<int>
    const seeds: seq<(string, int)>
    var seeded: bool

    ghost predicate Valid()
      reads this, s
    {
      s.Valid()
    }

    constructor (s: YieldingStateStore<int>, seeds: seq<(string, int)>)
      ensures this.s == s && this.seeds == seeds && !seeded
    {
      this.s, this.seeds, seeded := s, seeds, false;
    }

    /** Registers each department once; an existing budget is never written. */
    method SeedIfAbsent() returns (ghost m: seq<Change<int>>)
      requires Valid()
      modifies this, s
      ensures Valid() && seeded
      ensures s.log == old(s.log) + m && OnlySeeds(m, seeds)
      ensures old(seeded) ==> m == []
    {
      m := [];
      if seeded { return; }
      for i := 0 to |seeds|
        invariant Valid() && s.log == old(s.log) + m && OnlySeeds(m, seeds)
      {
        var ok, foreign := TryRegister(s, Key(seeds[i].0), seeds[i].1);
        ghost var mine := if ok then [Change(Key(seeds[i].0), None, Some(seeds[i].1), true)] else [];
        assert s.log == old(s.log) + m + foreign + mine;
        OnlySeedsGrows(old(s.log), m, foreign, mine, seeds, i);
        m := m + (foreign + mine);
      }
      seeded := true;
    }

    /** After seeding, an atomic debit: see `Effect` and `ReserveMeans`. */
    method Reserve(dept: string, amount: int)
      returns (r: Outcome, ghost seeding: seq<Change<int>>, ghost foreign: seq<Change<int>>)
      requires Valid()
      modifies this, s
      ensures Valid()
      ensures r.InvalidAmount? <==> amount <= 0
      ensures amount <= 0 ==> s.log == old(s.log)
      ensures amount > 0 ==> OnlySeeds(seeding, seeds)
      ensures amount > 0 ==>
        Effect(old(s.log) + seeding, s.log, s.store, foreign, Key(dept), -amount, Refuses(amount), r)
    {
      seeding, foreign := [], [];
      if amount <= 0 { return InvalidAmount, [], []; }
      seeding := SeedIfAbsent();
      ghost var l0 := s.log;
      for i := 0 to MAX_RETRIES
        invariant s.Valid() && s.log == l0 + foreign && NoneOwn(foreign) && i <= Hits(foreign, Key(dept))
      {
        var attempt, m := Attempt(s, Key(dept), ReserveUpdate(amount));
        HitsAppend(foreign, m, Key(dept));
        if attempt.Some? {
          LinearizedAfter(l0, foreign, s.log, s.store, m, Key(dept), ReserveUpdate(amount), MAX_RETRIES, attempt.value);
          EffectOfAttempt(l0, s.log, s.store, foreign + m, Key(dept), -amount,
                          Refuses(amount), ReserveUpdate(amount), attempt.value);
          return Answer(attempt.value.Committed?), seeding, foreign + m;
        }
        foreign := foreign + m;
      }
      r := CasConflict;
    }

    /** After seeding, an atomic add-back (`ReleaseMeans`); False is the no-op on an unknown department. */
    method Release(dept: string, amount: int)
      returns (r: Outcome, ghost seeding: seq<Change<int>>, ghost foreign: seq<Change<int>>)
      requires Valid()
      modifies this, s
      ensures Valid()
      ensures r.InvalidAmount? <==> amount <= 0
      ensures amount <= 0 ==> s.log == old(s.log)
      ensures amount > 0 ==> OnlySeeds(seeding, seeds)
      ensures amount > 0 ==>
        Effect(old(s.log) + seeding, s.log, s.store, foreign, Key(dept), amount, (v: Option<int>) => v.None?, r)
    {
      seeding, foreign := [], [];
      if amount <= 0 { return InvalidAmount, [], []; }
      seeding := SeedIfAbsent();
      ghost var l0 := s.log;
      for i := 0 to MAX_RETRIES
        invariant s.Valid() && s.log == l0 + foreign && NoneOwn(foreign) && i <= Hits(foreign, Key(dept))
      {
        var attempt, m := Attempt(s, Key(dept), ReleaseUpdate(amount));
        HitsAppend(foreign, m, Key(dept));
        if attempt.Some? {
          LinearizedAfter(l0, foreign, s.log, s.store, m, Key(dept), ReleaseUpdate(amount), MAX_RETRIES, attempt.value);
          EffectOfAttempt(l0, s.log, s.store, foreign + m, Key(dept), amount,
                          (v: Option<int>) => v.None?, ReleaseUpdate(amount), attempt.value);
          return Answer(attempt.value.Committed?), seeding, foreign + m;
        }
        foreign := foreign + m;
      }
      r := CasConflict;
    }

    method GetRemaining(dept: string) returns (remaining: Option<int>, ghost m: seq<Change<int>>)
      requires Valid()
      modifies this, s
      ensures Valid() && s.log == old(s.log) + m && OnlySeeds(m, seeds)
      ensures remaining == s.store.Value(Key(dept))
    {
      var seeding := SeedIfAbsent();
      var value, _, foreign := s.Get(Key(dept));
      remaining, m := value, seeding + foreign;
    }
  }
}
