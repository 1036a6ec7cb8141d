/** The etag key-value store every service keeps its state in
    (libs/afcommon/afcommon/state.py).

    `Store` is the value the store holds at one instant. `YieldingStateStore` is
    the object: it gives up control before each get and save, so other tasks may
    write in between. Those writes are scripted by `others`; a contract holds for
    every script, that is, for every interference. */
module StateStore {
  import opened Wrappers

  /** A value and the etag its write produced. */
  datatype Entry<V> = Entry(value: V, etag: nat)

  /** Fresh etags (uuid4 in the source) are drawn from a counter: only their freshness is used. */
  datatype Store<V> = Store(data: map<string, Entry<V>>, nextEtag: nat) {
    ghost predicate Valid() {
      forall k | k in data :: data[k].etag < nextEtag
    }

    function Value(key: string): Option<V> {
      if key in data then Some(data[key].value) else None
    }

    function Etag(key: string): Option<nat> {
      if key in data then Some(data[key].etag) else None
    }

    ghost function Values(): map<string, V> {
      map k | k in data :: data[k].value
    }

    /** The check of `try_save`: None means first write only, otherwise the etag must be current. */
    predicate Accepts(key: string, etag: Option<nat>) {
      if etag.None? then key !in data else key in data && data[key].etag == etag.value
    }

    function Put(key: string, value: V): Store<V> {
      Store(data[key := Entry(value, nextEtag)], nextEtag + 1)
    }

    function Erase(key: string): Store<V> {
      Store(map k | k in data && k != key :: data[k], nextEtag)
    }
  }

  /** A write of another task that takes effect. */
  datatype Move<V> = PutMove(key: string, value: V) | EraseMove(key: string)

  /** One effective write: what the key held before and after, and whether this task wrote it. */
  datatype Change<V> = Change(key: string, before: Option<V>, after: Option<V>, own: bool)

  /** What the keys hold after the changes in `log`. */
  ghost function Replay<V>(log: seq<Change<V>>): map<string, V> {
    if log == [] then map[]
    else
      var prev := Replay(log[..|log| - 1]);
      var c := log[|log| - 1];
      if c.after.Some? then prev[c.key := c.after.value] else prev - {c.key}
  }

  /** Each change starts from what the changes before it left. */
  ghost predicate Chained<V>(log: seq<Change<V>>) {
    log == [] ||
    var prev := log[..|log| - 1];
    var c := log[|log| - 1];
    Chained(prev) && c.before == if c.key in Replay(prev) then Some(Replay(prev)[c.key]) else None
  }

  /** How many changes hit `key`. */
  ghost function Hits<V>(log: seq<Change<V>>, key: string): nat {
    if log == [] then 0
    else Hits(log[..|log| - 1], key) + if log[|log| - 1].key == key then 1 else 0
  }

  ghost predicate NoneOwn<V>(log: seq<Change<V>>) {
    forall c | c in log :: !c.own
  }

  lemma {:induction false} HitsAppend<V>(a: seq<Change<V>>, b: seq<Change<V>>, key: string)
    ensures Hits(a + b, key) == Hits(a, key) + Hits(b, key)
  {
    if b == [] {
      assert a + b == a;
    } else {
      var c := b[..|b| - 1];
      assert (a + b)[..|a + b| - 1] == a + c;
      HitsAppend(a, c, key);
    }
  }

  /** The store is the outcome of the logged changes. */
  ghost predicate Replays<V>(store: Store<V>, log: seq<Change<V>>) {
    Chained(log) && Replay(log) == store.Values()
  }

  lemma ReplaysGrow<V>(store: Store<V>, log: seq<Change<V>>, key: string, value: Option<V>, own: bool)
    requires Replays(store, log)
    ensures var after := if value.Some? then store.Put(key, value.value) else store.Erase(key);
      Replays(after, log + [Change(key, store.Value(key), value, own)])
  {
    var c := Change(key, store.Value(key), value, own);
    assert (log + [c])[..|log + [c]| - 1] == log;
    if value.Some? {
      assert store.Put(key, value.value).Values() == store.Values()[key := value.value];
    } else {
      assert store.Erase(key).Values() == store.Values() - {key};
    }
  }

  /** What the changes `more` may have done between two instants: an entry whose etag
      is old is the old entry, and a key without a change kept its etag. */
  ghost predicate Evolves<V>(a: Store<V>, b: Store<V>, more: seq<Change<V>>) {
    && a.nextEtag <= b.nextEtag
    && (forall k | k in b.data && b.data[k].etag < a.nextEtag :: k in a.data && a.data[k] == b.data[k])
    && (forall k | Hits(more, k) == 0 :: b.Etag(k) == a.Etag(k))
  }

  lemma EvolvesCompose<V>(a: Store<V>, b: Store<V>, c: Store<V>, m: seq<Change<V>>, n: seq<Change<V>>)
    requires Evolves(a, b, m) && Evolves(b, c, n)
    ensures Evolves(a, c, m + n)
  {
    forall k ensures Hits(m + n, k) == Hits(m, k) + Hits(n, k) { HitsAppend(m, n, k); }
  }

  class YieldingStateStore<V> {
    var store: Store<V>
    var conflicts: nat
    /** The writes of other tasks at each coming suspension point. */
    var others: seq<seq<Move<V>>>
    /** Every effective write so far, in order. */
    ghost var log: seq<Change<V>>

    ghost predicate Valid()
      reads this
    {
      store.Valid() && Replays(store, log)
    }

    constructor (others: seq<seq<Move<V>>>)
      ensures Valid() && log == [] && conflicts == 0 && this.others == others
      ensures store == Store(map[], 0)
    {
      store, conflicts, this.others, log := Store(map[], 0), 0, others, [];
    }

    /** One write: `value` None deletes the key. */
    method Apply(key: string, value: Option<V>, ghost own: bool)
      requires Valid()
      modifies this`store, this`log
      ensures Valid()
      ensures store == if value.Some? then old(store).Put(key, value.value) else old(store).Erase(key)
      ensures log == old(log) + [Change(key, old(store.Value(key)), value, own)]
      ensures Evolves(old(store), store, [Change(key, old(store.Value(key)), value, own)])
    {
      ghost var c := Change(key, store.Value(key), value, own);
      ReplaysGrow(store, log, key, value, own);
      store := if value.Some? then store.Put(key, value.value) else store.Erase(key);
      log := log + [c];
      assert [c][..0] == [];
      assert Hits([c], key) == 1;
    }

    /** The suspension before every operation: the next batch of foreign writes lands. */
    method Suspend() returns (ghost more: seq<Change<V>>)
      requires Valid()
      modifies this`store, this`log, this`others
      ensures Valid() && log == old(log) + more && Evolves(old(store), store, more) && NoneOwn(more)
    {
      more := [];
      if others == [] { return; }
      var moves := others[0];
      others := others[1..];
      var i := 0;
      while i < |moves|
        invariant 0 <= i <= |moves|
        invariant Valid() && log == old(log) + more && Evolves(old(store), store, more) && NoneOwn(more)
      {
        var key, value := moves[i].key, if moves[i].PutMove? then Some(moves[i].value) else None;
        ghost var c := Change(key, store.Value(key), value, false);
        ghost var was := store;
        Apply(key, value, false);
        EvolvesCompose(old(store), was, store, more, [c]);
        more := more + [c];
        i := i + 1;
      }
    }

    method Get(key: string) returns (value: Option<V>, etag: Option<nat>, ghost more: seq<Change<V>>)
      requires Valid()
      modifies this`store, this`log, this`others
      ensures Valid() && log == old(log) + more && Evolves(old(store), store, more) && NoneOwn(more)
      ensures value == store.Value(key) && etag == store.Etag(key)
    {
      more := Suspend();
      value, etag := store.Value(key), store.Etag(key);
    }

    /** `ok` exactly when the etag is still current after the suspension; then the
        value is stored under a fresh etag, otherwise a conflict is counted. */
    method TrySave(key: string, value: V, etag: Option<nat>)
      returns (ok: bool, ghost more: seq<Change<V>>, ghost before: Store<V>)
      requires Valid()
      modifies this
      ensures Valid() && NoneOwn(more) && before.Valid() && Evolves(old(store), before, more)
      ensures ok == before.Accepts(key, etag)
      ensures store == if ok then before.Put(key, value) else before
      ensures log == old(log) + more
                     + if ok then [Change(key, before.Value(key), Some(value), true)] else []
      ensures conflicts == old(conflicts) + if ok then 0 else 1
    {
      more := Suspend();
      before := store;
      ok := store.Accepts(key, etag);
      if ok {
        Apply(key, Some(value), true);
      } else {
        conflicts := conflicts + 1;
      }
    }

    /** Deletes do not suspend in the source. */
    method Delete(key: string)
      requires Valid()
      modifies this`store, this`log
      ensures Valid() && store == old(store).Erase(key)
      ensures log == old(log) + [Change(key, old(store.Value(key)), None, true)]
    {
      Apply(key, None, true);
    }
  }
}
