/** Runs of step machines.

    A protocol is a function `step` that, given a state and the action of one
    process at one suspension point, yields the next state, or None when that
    action is not possible there. A run is any sequence of possible actions, so
    a statement about every run is a statement about every interleaving. */
module Runs {
  import opened Wrappers

  ghost function Run<S, A>(step: (S, A) -> Option<S>, s: S, trace: seq<A>): Option<S> {
    if trace == [] then Some(s)
    else match step(s, trace[0])
      case None => None
      case Some(t) => Run(step, t, trace[1..])
  }

  /** `inv` survives every possible action. */
  ghost predicate Inductive<S(!new), A(!new)>(step: (S, A) -> Option<S>, inv: S -> bool) {
    forall s, a :: inv(s) && step(s, a).Some? ==> inv(step(s, a).value)
  }

  /** An inductive predicate holds at the end of every run that starts in it. */
  lemma {:induction false} InvariantOfRun<S(!new), A(!new)>(
    step: (S, A) -> Option<S>, inv: S -> bool, s: S, trace: seq<A>)
    requires Inductive(step, inv)
    requires inv(s) && Run(step, s, trace).Some?
    ensures inv(Run(step, s, trace).value)
  {
    if trace != [] {
      var t := step(s, trace[0]).value;
      assert inv(t);
      InvariantOfRun(step, inv, t, trace[1..]);
    }
  }

  /** A reflexive, transitive relation kept by every step from a state in `inv`
      relates the two ends of every run. */
  lemma {:induction false} RelationOfRun<S(!new), A(!new)>(
    step: (S, A) -> Option<S>, inv: S -> bool, rel: (S, S) -> bool, s: S, trace: seq<A>)
    requires Inductive(step, inv)
    requires forall x :: rel(x, x)
    requires forall x, y, z :: rel(x, y) && rel(y, z) ==> rel(x, z)
    requires forall x, a :: inv(x) && step(x, a).Some? ==> rel(x, step(x, a).value)
    requires inv(s) && Run(step, s, trace).Some?
    ensures rel(s, Run(step, s, trace).value)
  {
    if trace != [] {
      var t := step(s, trace[0]).value;
      assert rel(s, t) && inv(t);
      RelationOfRun(step, inv, rel, t, trace[1..]);
    }
  }

  /** One more step at the end of a run. */
  lemma {:induction false} RunSnoc<S(!new), A(!new)>(step: (S, A) -> Option<S>, s: S, trace: seq<A>, a: A)
    requires Run(step, s, trace).Some?
    ensures Run(step, s, trace + [a]) == step(Run(step, s, trace).value, a)
    decreases |trace|
  {
    if trace == [] {
      assert trace + [a] == [a];
    } else {
      assert (trace + [a])[1..] == trace[1..] + [a];
      RunSnoc(step, step(s, trace[0]).value, trace[1..], a);
    }
  }

  /** One step before a run. */
  lemma RunCons<S(!new), A(!new)>(step: (S, A) -> Option<S>, s: S, a: A, rest: seq<A>)
    requires step(s, a).Some?
    ensures Run(step, s, [a] + rest) == Run(step, step(s, a).value, rest)
  {
    assert ([a] + rest)[1..] == rest;
  }

  /** A run after a run. */
  lemma {:induction false} RunConcat<S(!new), A(!new)>(step: (S, A) -> Option<S>, s: S, a: seq<A>, b: seq<A>)
    requires Run(step, s, a).Some?
    ensures Run(step, s, a + b) == Run(step, Run(step, s, a).value, b)
    decreases |a|
  {
    if a == [] {
      assert a + b == b;
    } else {
      assert (a + b)[1..] == a[1..] + b;
      RunConcat(step, step(s, a[0]).value, a[1..], b);
    }
  }

  /** A run, cut in two. */
  lemma {:induction false} RunSplit<S(!new), A(!new)>(step: (S, A) -> Option<S>, s: S, trace: seq<A>, n: nat)
    requires Run(step, s, trace).Some? && n <= |trace|
    ensures Run(step, s, trace[..n]).Some?
    ensures Run(step, Run(step, s, trace[..n]).value, trace[n..]) == Run(step, s, trace)
    decreases n
  {
    if n == 0 {
      assert trace[0..] == trace;
    } else {
      RunSplit(step, step(s, trace[0]).value, trace[1..], n - 1);
      assert trace[..n][1..] == trace[1..][..n - 1] && trace[1..][n - 1..] == trace[n..];
    }
  }

  /** The step a run takes at `n`. */
  lemma RunAt<S(!new), A(!new)>(step: (S, A) -> Option<S>, s: S, trace: seq<A>, n: nat)
    requires Run(step, s, trace).Some? && n < |trace|
    ensures Run(step, s, trace[..n]).Some?
    ensures step(Run(step, s, trace[..n]).value, trace[n]).Some?
    ensures Run(step, s, trace[..n + 1]) == step(Run(step, s, trace[..n]).value, trace[n])
    ensures Run(step, step(Run(step, s, trace[..n]).value, trace[n]).value, trace[n + 1..]) == Run(step, s, trace)
  {
    RunSplit(step, s, trace, n);
    assert trace[n..][1..] == trace[n + 1..];
    RunSnoc(step, s, trace[..n], trace[n]);
    assert trace[..n] + [trace[n]] == trace[..n + 1];
  }

  /** `ok` holds before the first step of the run and after every one. */
  ghost predicate Throughout<S(!new), A(!new)>(step: (S, A) -> Option<S>, s: S, trace: seq<A>, ok: S -> bool) {
    forall n | 0 <= n <= |trace| :: Run(step, s, trace[..n]).Some? ==> ok(Run(step, s, trace[..n]).value)
  }

  /** No step of the run is `bad` where it is taken. */
  ghost predicate Never<S(!new), A(!new)>(step: (S, A) -> Option<S>, s: S, trace: seq<A>, bad: (S, A) -> bool) {
    forall n | 0 <= n < |trace| :: Run(step, s, trace[..n]).Some? ==> !bad(Run(step, s, trace[..n]).value, trace[n])
  }

  lemma {:induction false} HoldsUpTo<S(!new), A(!new)>(
    step: (S, A) -> Option<S>, inv: S -> bool, bad: (S, A) -> bool, s: S, trace: seq<A>, n: nat)
    requires forall x, a :: inv(x) && step(x, a).Some? && !bad(x, a) ==> inv(step(x, a).value)
    requires inv(s) && Run(step, s, trace).Some? && Never(step, s, trace, bad) && n <= |trace|
    ensures Run(step, s, trace[..n]).Some? && inv(Run(step, s, trace[..n]).value)
    decreases n
  {
    if n > 0 {
      HoldsUpTo(step, inv, bad, s, trace, n - 1);
      RunAt(step, s, trace, n - 1);
    }
  }

  /** What only a bad step can end holds throughout a run without one. */
  lemma HoldsUnless<S(!new), A(!new)>(
    step: (S, A) -> Option<S>, inv: S -> bool, bad: (S, A) -> bool, s: S, trace: seq<A>)
    requires forall x, a :: inv(x) && step(x, a).Some? && !bad(x, a) ==> inv(step(x, a).value)
    requires inv(s) && Run(step, s, trace).Some? && Never(step, s, trace, bad)
    ensures Throughout(step, s, trace, inv) && inv(Run(step, s, trace).value)
  {
    forall n | 0 <= n <= |trace| ensures Run(step, s, trace[..n]).Some? && inv(Run(step, s, trace[..n]).value) {
      HoldsUpTo(step, inv, bad, s, trace, n);
    }
    assert trace[..|trace|] == trace;
  }

  /** If, among the states of an invariant, exactly the steps in `breaks` end `ok`, then a run
      keeps `ok` throughout if and only if it takes no such step. */
  lemma HoldsIff<S(!new), A(!new)>(
    step: (S, A) -> Option<S>, inv: S -> bool, ok: S -> bool, breaks: (S, A) -> bool, s: S, trace: seq<A>)
    requires Inductive(step, inv) && inv(s) && ok(s) && Run(step, s, trace).Some?
    requires forall x, a :: inv(x) && ok(x) && step(x, a).Some? ==> (!ok(step(x, a).value) <==> breaks(x, a))
    ensures Throughout(step, s, trace, ok) <==> Never(step, s, trace, breaks)
    ensures Never(step, s, trace, breaks) ==> ok(Run(step, s, trace).value)
  {
    if Throughout(step, s, trace, ok) {
      forall n | 0 <= n < |trace| ensures !breaks(Run(step, s, trace[..n]).GetOr(s), trace[n]) {
        RunAt(step, s, trace, n);
        InvariantOfRun(step, inv, s, trace[..n]);
        assert ok(Run(step, s, trace[..n]).value) && ok(Run(step, s, trace[..n + 1]).value);
      }
    }
    if Never(step, s, trace, breaks) {
      var both := (x: S) => inv(x) && ok(x);
      HoldsUnless(step, both, breaks, s, trace);
    }
  }

  /** `trace` is a run from `start` that ends in `s`. */
  ghost predicate LeadsTo<S(!new), A(!new)>(step: (S, A) -> Option<S>, start: S, trace: seq<A>, s: S) {
    Run(step, start, trace) == Some(s)
  }

  /** What comes after a run that led to `s`. */
  lemma LeadsOn<S(!new), A(!new)>(step: (S, A) -> Option<S>, start: S, before: seq<A>, s: S, more: seq<A>, t: S)
    requires LeadsTo(step, start, before, s) && LeadsTo(step, start, before + more, t)
    ensures Run(step, s, more) == Some(t)
  {
    RunConcat(step, start, before, more);
  }

  lemma OneMore<S(!new), A(!new)>(step: (S, A) -> Option<S>, start: S, trace: seq<A>, s: S, a: A)
    requires LeadsTo(step, start, trace, s) && step(s, a).Some?
    ensures LeadsTo(step, start, trace + [a], step(s, a).value)
  {
    RunSnoc(step, start, trace, a);
  }
}
