/** The duplicate registry with its resubmission exception
    (services/decision/src/fingerprint.py), for any number of submissions at once.

    The digest (sha256) is any function of the text it is given. */
module Fingerprint {
  import opened Wrappers
  import opened Runs
  import opened StateStore
  import opened CasLoop
  import opened Money

  datatype Submission = Submission(vendor: string, number: string, total: Option<real>, totalText: string)

  type Hash = string -> string

  function Digits(n: nat): string {
    (if n < 10 then "" else Digits(n / 10)) + [('0' as int + n % 10) as char]
  }

  function Decimal(n: int): string {
    if n < 0 then "-" + Digits(-n) else Digits(n)
  }

  /** A total counts by its cents if it parses, otherwise by its own text. */
  function TotalText(s: Submission, fits: Converts): string {
    var cents := if s.total.Some? then ToCents(fits, s.total.value) else None;
    if cents.Some? then Decimal(cents.value) else s.totalText
  }

  function FingerprintOf(s: Submission, fits: Converts, hash: Hash): string {
    hash(s.vendor + "|" + s.number + "|" + TotalText(s, fits))
  }

  // ----- what a fingerprint tells apart

  ghost predicate Injective(hash: Hash) {
    forall x, y :: hash(x) == hash(y) ==> x == y
  }

  predicate Parses(s: Submission, fits: Converts) {
    s.total.Some? && fits(s.total.value)
  }

  /** As long as vendors and numbers hold no '|', and digests do not collide, submissions share a
      fingerprint exactly when vendor and number agree, and the amount in cents, or the text where
      there is none. */
  lemma SameFingerprintIff(a: Submission, b: Submission, fits: Converts, hash: Hash)
    requires Injective(hash)
    requires '|' !in a.vendor && '|' !in a.number && '|' !in b.vendor && '|' !in b.number
    ensures FingerprintOf(a, fits, hash) == FingerprintOf(b, fits, hash) <==>
      && a.vendor == b.vendor && a.number == b.number
      && (Parses(a, fits) && Parses(b, fits) ==>
            RoundHalfUp(a.total.value * 100.0) == RoundHalfUp(b.total.value * 100.0))
      && (!Parses(a, fits) && !Parses(b, fits) ==> a.totalText == b.totalText)
      && (Parses(a, fits) && !Parses(b, fits) ==> Decimal(RoundHalfUp(a.total.value * 100.0)) == b.totalText)
      && (!Parses(a, fits) && Parses(b, fits) ==> a.totalText == Decimal(RoundHalfUp(b.total.value * 100.0)))
  {
    var x, y := TotalText(a, fits), TotalText(b, fits);
    if FingerprintOf(a, fits, hash) == FingerprintOf(b, fits, hash) {
      assert a.vendor + "|" + a.number + "|" + x == a.vendor + "|" + (a.number + "|" + x);
      assert b.vendor + "|" + b.number + "|" + y == b.vendor + "|" + (b.number + "|" + y);
      SplitsAtBar(a.vendor, b.vendor, a.number + "|" + x, b.number + "|" + y);
      SplitsAtBar(a.number, b.number, x, y);
    }
    if Parses(a, fits) && Parses(b, fits) {
      DecimalIsInjective(RoundHalfUp(a.total.value * 100.0), RoundHalfUp(b.total.value * 100.0));
    }
  }

  /** With a '|' in a name they need not be the same invoice, whatever the digest. */
  lemma BarsCollide(fits: Converts, hash: Hash, total: Option<real>, totalText: string)
    ensures FingerprintOf(Submission("a|b", "c", total, totalText), fits, hash)
         == FingerprintOf(Submission("a", "b|c", total, totalText), fits, hash)
  {
    assert "a|b" + "|" + "c" == "a" + "|" + "b|c";
  }

  lemma SplitsAtBar(a: string, b: string, x: string, y: string)
    requires '|' !in a && '|' !in b && a + "|" + x == b + "|" + y
    ensures a == b && x == y
  {
    var s, t := a + "|" + x, b + "|" + y;
    assert s[|a|] == '|' && t[|b|] == '|';
    assert a == s[..|a|] && b == t[..|b|] && x == s[|a| + 1..] && y == t[|b| + 1..];
  }

  lemma {:induction false} DigitsAreInjective(m: nat, n: nat)
    requires Digits(m) == Digits(n)
    ensures m == n
  {
    var s, t := Digits(m), Digits(n);
    assert s[|s| - 1] as int - '0' as int == m % 10 && t[|t| - 1] as int - '0' as int == n % 10;
    assert s[..|s| - 1] == if m < 10 then "" else Digits(m / 10);
    assert t[..|t| - 1] == if n < 10 then "" else Digits(n / 10);
    if m >= 10 && n >= 10 { DigitsAreInjective(m / 10, n / 10); }
  }

  lemma {:induction false} DigitsHaveNoSign(n: nat)
    ensures Digits(n) != "" && '0' <= Digits(n)[0] <= '9'
  {
    if n >= 10 { DigitsHaveNoSign(n / 10); }
  }

  lemma DecimalIsInjective(m: int, n: int)
    ensures Decimal(m) == Decimal(n) <==> m == n
  {
    if Decimal(m) == Decimal(n) {
      if m >= 0 { DigitsHaveNoSign(m); }
      if n >= 0 { DigitsHaveNoSign(n); }
      assert m < 0 <==> n < 0;
      if m < 0 {
        assert Digits(-m) == Decimal(m)[1..] && Digits(-n) == Decimal(n)[1..];
        DigitsAreInjective(-m, -n);
      } else {
        DigitsAreInjective(m, n);
      }
    }
  }

  // ----- one task, under arbitrary interference

  /** `check_and_register`: the answer is whether `id` owns the fingerprint, which by then has
      an owner unless another task deleted it; the call writes at most the first registration. */
  method CheckAndRegister(s: YieldingStateStore<string>, fp: string, id: string)
    returns (first: bool, ghost foreign: seq<Change<string>>)
    requires s.Valid()
    modifies s
    ensures s.Valid() && NoneOwn(foreign)
    ensures first <==> s.store.Value(fp) == Some(id)
    ensures s.log == old(s.log) + foreign || s.log == old(s.log) + foreign + [Change(fp, None, Some(id), true)]
    ensures s.store.Value(fp).None? ==> Hits(foreign, fp) >= 1
  {
    var registered, m1 := TryRegister(s, fp, id);
    foreign := m1;
    if registered { return true, foreign; }
    var existing, _, m2 := s.Get(fp);
    assert old(s.log) + m1 + m2 == old(s.log) + (m1 + m2);
    foreign := m1 + m2;
    HitsAppend(m1, m2, fp);
    first := existing == Some(id);
  }

  // ----- any number of tasks

  /** The read of `try_register`, its first write, and the second read. */
  datatype Pc = Looking | Registering | Comparing

  datatype Call = Call(fp: string, id: string, pc: Pc)

  datatype Answer = Answer(fp: string, id: string, first: bool)

  datatype State = State(owners: map<string, string>, calls: map<nat, Call>, answers: seq<Answer>)

  datatype Action = Begin(c: nat, fp: string, id: string) | Advance(c: nat) | Abandon(c: nat)

  function Reply(s: State, c: nat, first: bool): State
    requires c in s.calls
  {
    s.(calls := s.calls - {c}, answers := s.answers + [Answer(s.calls[c].fp, s.calls[c].id, first)])
  }

  function Step(s: State, a: Action): Option<State> {
    match a
    case Begin(c, fp, id) =>
      if c in s.calls then None else Some(s.(calls := s.calls[c := Call(fp, id, Looking)]))
    case Abandon(c) =>
      if c !in s.calls then None else Some(s.(calls := s.calls - {c}))
    case Advance(c) =>
      if c !in s.calls then None
      else
        var call := s.calls[c];
        var known := call.fp in s.owners;
        match call.pc
        case Looking => Some(s.(calls := s.calls[c := call.(pc := if known then Comparing else Registering)]))
        case Registering =>
          if known then Some(s.(calls := s.calls[c := call.(pc := Comparing)]))
          else Some(Reply(s.(owners := s.owners[call.fp := call.id]), c, true))
        case Comparing => Some(Reply(s, c, known && s.owners[call.fp] == call.id))
  }

  ghost predicate Init(s: State) {
    s == State(map[], map[], [])
  }

  /** Every answer given so far says whether its id is the owner. */
  ghost predicate Inv(s: State) {
    && (forall c | c in s.calls && s.calls[c].pc.Comparing? :: s.calls[c].fp in s.owners)
    && (forall a | a in s.answers :: a.fp in s.owners && (a.first <==> s.owners[a.fp] == a.id))
  }

  lemma StepKeepsInv(s: State, a: Action)
    requires Inv(s) && Step(s, a).Some?
    ensures Inv(Step(s, a).value)
  {
  }

  lemma RunKeepsInv(s0: State, trace: seq<Action>)
    requires Init(s0) && Run(Step, s0, trace).Some?
    ensures Inv(Run(Step, s0, trace).value)
  {
    forall s, a | Inv(s) && Step(s, a).Some? ensures Inv(Step(s, a).value) { StepKeepsInv(s, a); }
    InvariantOfRun(Step, Inv, s0, trace);
  }

  /** All True answers for a fingerprint go to one id, and the answer for a fingerprint and id
      is always the same, early or late. */
  lemma SingleOwner(s0: State, trace: seq<Action>, k: nat, l: nat)
    requires Init(s0) && Run(Step, s0, trace).Some?
    requires var s := Run(Step, s0, trace).value; k < |s.answers| && l < |s.answers| && s.answers[k].fp == s.answers[l].fp
    ensures var x, y := Run(Step, s0, trace).value.answers[k], Run(Step, s0, trace).value.answers[l];
      && (x.first && y.first ==> x.id == y.id)
      && (x.id == y.id ==> x.first == y.first)
  {
    RunKeepsInv(s0, trace);
    var s := Run(Step, s0, trace).value;
    assert s.answers[k] in s.answers && s.answers[l] in s.answers;
  }

  /** A False answer means that another id owns the fingerprint for good. */
  lemma DuplicateHasOwner(s0: State, trace: seq<Action>, k: nat)
    requires Init(s0) && Run(Step, s0, trace).Some? && k < |Run(Step, s0, trace).value.answers|
    ensures var s := Run(Step, s0, trace).value;
      s.answers[k].fp in s.owners && (s.answers[k].first <==> s.owners[s.answers[k].fp] == s.answers[k].id)
  {
    RunKeepsInv(s0, trace);
    var s := Run(Step, s0, trace).value;
    assert s.answers[k] in s.answers;
  }

  /** Two ids with the same vendor, number and cents never both pass, however the totals are
      written and whatever the hash. */
  lemma SameInvoicePassesOnce(s0: State, trace: seq<Action>, a: Submission, b: Submission, fits: Converts, hash: Hash,
                              k: nat, l: nat)
    requires Init(s0) && Run(Step, s0, trace).Some?
    requires a.vendor == b.vendor && a.number == b.number
    requires a.total.Some? && b.total.Some? && fits(a.total.value) && fits(b.total.value)
    requires RoundHalfUp(a.total.value * 100.0) == RoundHalfUp(b.total.value * 100.0)
    requires var s := Run(Step, s0, trace).value; k < |s.answers| && l < |s.answers|
    requires Run(Step, s0, trace).value.answers[k].fp == FingerprintOf(a, fits, hash)
    requires Run(Step, s0, trace).value.answers[l].fp == FingerprintOf(b, fits, hash)
    requires Run(Step, s0, trace).value.answers[k].id != Run(Step, s0, trace).value.answers[l].id
    ensures !(Run(Step, s0, trace).value.answers[k].first && Run(Step, s0, trace).value.answers[l].first)
  {
    SingleOwner(s0, trace, k, l);
  }
}
