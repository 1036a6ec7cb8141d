/** The compare-and-swap loop `cas_update` and the first-write `try_register`
    (libs/afcommon/afcommon/state.py), run by one task under arbitrary interference. */
module CasLoop {
  import opened Wrappers
  import opened StateStore

  /** What an update function answers on the value it is shown: a replacement, or an
      exception (or early return) that leaves the loop without writing. */
  datatype Decision<+V, +E> = Write(value: V) | Stop(reason: E)

  datatype CasResult<+V, +E> = Committed(value: V) | Stopped(reason: E) | Exhausted

  const MAX_RETRIES: nat := 10

  /** The atomic effect of a finished loop. `foreign` are the changes of other tasks
      during the call; the caller's own change, if any, comes last and replaces exactly
      the value its update function was applied to. */
  ghost predicate Linearized<V, E>(
    oldLog: seq<Change<V>>, log: seq<Change<V>>, now: Store<V>, foreign: seq<Change<V>>,
    key: string, update: Option<V> -> Decision<V, E>, retries: nat, r: CasResult<V, E>)
  {
    NoneOwn(foreign) &&
    match r
    case Committed(v) =>
      && |log| > 0
      && var c := log[|log| - 1];
      && log == oldLog + foreign + [c]
      && c == Change(key, c.before, Some(v), true)
      && update(c.before) == Write(v)
    case Stopped(e) => log == oldLog + foreign && update(now.Value(key)) == Stop(e)
    case Exhausted => log == oldLog + foreign && Hits(foreign, key) >= retries
  }

  /** An unchanged etag vouches for the value read; a changed one betrays a change. */
  lemma EtagGuards<V>(read: Store<V>, later: Store<V>, more: seq<Change<V>>, key: string)
    requires read.Valid() && later.Valid() && Evolves(read, later, more)
    ensures later.Accepts(key, read.Etag(key)) ==> later.Value(key) == read.Value(key)
    ensures !later.Accepts(key, read.Etag(key)) ==> Hits(more, key) >= 1
  {
  }

  /** One attempt, seen as values: what it read at `read` and saved on `before`. An accepted save
      is a commit of the whole attempt; */
  lemma AttemptCommits<V, E>(
    l0: seq<Change<V>>, m1: seq<Change<V>>, m2: seq<Change<V>>, log: seq<Change<V>>,
    read: Store<V>, before: Store<V>, now: Store<V>, key: string, update: Option<V> -> Decision<V, E>, v: V)
    requires NoneOwn(m1) && NoneOwn(m2) && read.Valid() && before.Valid() && Evolves(read, before, m2)
    requires update(read.Value(key)) == Write(v) && before.Accepts(key, read.Etag(key))
    requires log == l0 + m1 + m2 + [Change(key, before.Value(key), Some(v), true)]
    ensures Linearized(l0, log, now, m1 + m2, key, update, 1, Committed(v))
  {
    EtagGuards(read, before, m2, key);
    hide Evolves, Hits;
    var c := Change(key, before.Value(key), Some(v), true);
    assert log == l0 + (m1 + m2) + [c];
    assert log[|log| - 1] == c;
  }

  /** a refused one wrote nothing, and blames a change of the key. */
  lemma AttemptRefused<V>(
    l0: seq<Change<V>>, m1: seq<Change<V>>, m2: seq<Change<V>>, log: seq<Change<V>>,
    read: Store<V>, before: Store<V>, key: string)
    requires read.Valid() && before.Valid() && Evolves(read, before, m2)
    requires log == l0 + m1 + m2 + [] && !before.Accepts(key, read.Etag(key))
    ensures log == l0 + (m1 + m2) && Hits(m1 + m2, key) >= 1
  {
    EtagGuards(read, before, m2, key);
    HitsAppend(m1, m2, key);
    hide Evolves, Hits;
  }

  /** The body of the loop: read, compute, save. None asks for another attempt. */
  method Attempt<V, E>(s: YieldingStateStore<V>, key: string, update: Option<V> -> Decision<V, E>)
    returns (r: Option<CasResult<V, E>>, ghost foreign: seq<Change<V>>)
    requires s.Valid()
    modifies s
    ensures s.Valid() && NoneOwn(foreign)
    ensures r.Some? ==> !r.value.Exhausted?
    ensures r.Some? ==> Linearized(old(s.log), s.log, s.store, foreign, key, update, 1, r.value)
    ensures r.None? ==> s.log == old(s.log) + foreign && Hits(foreign, key) >= 1
    ensures s.conflicts == old(s.conflicts) + if r.None? then 1 else 0
  {
    var value, etag, m1 := s.Get(key);
    foreign := m1;
    ghost var read := s.store;
    match update(value) {
      case Stop(e) =>
        r := Some(Stopped(e));
      case Write(newValue) =>
        var ok, m2, before := s.TrySave(key, newValue, etag);
        foreign := m1 + m2;
        if ok {
          AttemptCommits(old(s.log), m1, m2, s.log, read, before, s.store, key, update, newValue);
        } else {
          AttemptRefused(old(s.log), m1, m2, s.log, read, before, key);
        }
        r := if ok then Some(Committed(newValue)) else None;
    }
  }

  /** A result of the last attempt is a result of the whole loop. */
  lemma LinearizedAfter<V, E>(
    l0: seq<Change<V>>, m0: seq<Change<V>>, log: seq<Change<V>>, now: Store<V>, m1: seq<Change<V>>,
    key: string, update: Option<V> -> Decision<V, E>, retries: nat, r: CasResult<V, E>)
    requires NoneOwn(m0) && !r.Exhausted?
    requires Linearized(l0 + m0, log, now, m1, key, update, 1, r)
    ensures Linearized(l0, log, now, m0 + m1, key, update, retries, r)
  {
    assert l0 + m0 + m1 == l0 + (m0 + m1);
  }

  method CasUpdate<V, E>(s: YieldingStateStore<V>, key: string, update: Option<V> -> Decision<V, E>,
                         retries: nat := MAX_RETRIES)
    returns (r: CasResult<V, E>, ghost foreign: seq<Change<V>>)
    requires s.Valid()
    modifies s
    ensures s.Valid()
    ensures Linearized(old(s.log), s.log, s.store, foreign, key, update, retries, r)
    ensures s.conflicts - old(s.conflicts) <= Hits(foreign, key)
  {
    foreign := [];
    for i := 0 to retries
      invariant s.Valid() && s.log == old(s.log) + foreign && NoneOwn(foreign)
      invariant s.conflicts - old(s.conflicts) == i <= Hits(foreign, key)
    {
      var attempt, m := Attempt(s, key, update);
      HitsAppend(foreign, m, key);
      if attempt.Some? {
        LinearizedAfter(old(s.log), foreign, s.log, s.store, m, key, update, retries, attempt.value);
        return attempt.value, foreign + m;
      }
      foreign := foreign + m;
    }
    r := Exhausted;
  }

  /** First write wins: true exactly when this call created the key, which then holds
      `value`; false means the key exists and was not touched by this call. */
  method TryRegister<V>(s: YieldingStateStore<V>, key: string, value: V)
    returns (ok: bool, ghost foreign: seq<Change<V>>)
    requires s.Valid()
    modifies s
    ensures s.Valid() && NoneOwn(foreign)
    ensures ok ==> s.log == old(s.log) + foreign + [Change(key, None, Some(value), true)]
    ensures ok ==> s.store.Value(key) == Some(value)
    ensures !ok ==> s.log == old(s.log) + foreign && s.store.Value(key).Some?
    ensures !ok ==> old(s.store).Value(key).Some? || Hits(foreign, key) >= 1
  {
    hide Replays;
    var existing, _, m1 := s.Get(key);
    foreign := m1;
    if existing.Some? {
      return false, foreign;
    }
    var saved, m2, before := s.TrySave(key, value, None);
    ok := saved;
    HitsAppend(m1, m2, key);
    foreign := m1 + m2;
  }
}
