/** Any number of concurrent `cas_update` calls on one store, stepped at every get
    and every save (libs/afcommon/afcommon/state.py). */
module CasMachine {
  import opened Wrappers
  import opened Runs
  import opened StateStore
  import opened CasLoop

  datatype Call<!V, !E> = Call(key: string, update: Option<V> -> Decision<V, E>, retries: nat)

  /** Where a call stands. `left` attempts remain; `seen` and `etag` are what its last
      get returned, and `hits` how many changes its key had then; `at` is the position
      of its commit in the log. */
  datatype Pc<+V, +E> =
    | Reading(left: nat)
    | Saving(left: nat, seen: Option<V>, etag: Option<nat>, hits: nat)
    | Returned(value: V, at: nat)
    | Raised(reason: E)
    | Conflict

  datatype Proc<!V, !E> = Proc(call: Call<V, E>, pc: Pc<V, E>, start: nat)

  /** The effective writes, in order. */
  datatype Op<!V, !E> = Commit(p: nat, call: Call<V, E>) | Deletion(k: string) {
    ghost function Key(): string {
      if Commit? then call.key else k
    }
  }

  datatype State<!V, !E> = State(store: Store<V>, procs: map<nat, Proc<V, E>>, log: seq<Op<V, E>>)

  datatype Action<!V, !E> = Spawn(p: nat, call: Call<V, E>) | DoGet(p: nat) | DoSave(p: nat) | DoDelete(key: string)

  /** The number of effective writes to `key`. */
  ghost function Hits<V, E>(log: seq<Op<V, E>>, key: string): nat {
    if log == [] then 0
    else Hits(log[..|log| - 1], key) + if log[|log| - 1].Key() == key then 1 else 0
  }

  /** How often call `p` committed. */
  ghost function Commits<V, E>(log: seq<Op<V, E>>, p: nat): nat {
    if log == [] then 0
    else Commits(log[..|log| - 1], p)
         + if log[|log| - 1].Commit? && log[|log| - 1].p == p then 1 else 0
  }

  /** The reference: apply the committed update functions one after the other. */
  ghost function Fold<V, E>(initial: Option<V>, log: seq<Op<V, E>>, key: string): Option<V> {
    if log == [] then initial
    else
      var prev := Fold(initial, log[..|log| - 1], key);
      var op := log[|log| - 1];
      if op.Key() != key then prev
      else if op.Deletion? then None
      else match op.call.update(prev)
        case Write(v) => Some(v)
        case Stop(_) => prev
  }

  ghost function Attempt<V, E>(call: Call<V, E>, left: nat): Pc<V, E> {
    if left == 0 then Conflict else Reading(left)
  }

  ghost function Step<V(!new), E(!new)>(s: State<V, E>, a: Action<V, E>): Option<State<V, E>> {
    match a
    case Spawn(p, call) =>
      if p in s.procs then None
      else Some(s.(procs := s.procs[p := Proc(call, Attempt(call, call.retries), Hits(s.log, call.key))]))
    case DoGet(p) =>
      if p !in s.procs || !s.procs[p].pc.Reading? then None
      else
        var proc := s.procs[p];
        var key := proc.call.key;
        var pc := match proc.call.update(s.store.Value(key))
          case Write(_) => Saving(proc.pc.left, s.store.Value(key), s.store.Etag(key), Hits(s.log, key))
          case Stop(e) => Raised(e);
        Some(s.(procs := s.procs[p := proc.(pc := pc)]))
    case DoSave(p) =>
      if p !in s.procs || !s.procs[p].pc.Saving? then None
      else
        var proc := s.procs[p];
        var key := proc.call.key;
        if proc.call.update(proc.pc.seen).Stop? then None
        else
          var v := proc.call.update(proc.pc.seen).value;
          if s.store.Accepts(key, proc.pc.etag) then
            Some(State(s.store.Put(key, v),
                       s.procs[p := proc.(pc := Returned(v, |s.log|))],
                       s.log + [Commit(p, proc.call)]))
          else if proc.pc.left == 0 then None
          else
            Some(s.(procs := s.procs[p := proc.(pc := Attempt(proc.call, proc.pc.left - 1))]))
    case DoDelete(key) =>
      Some(s.(store := s.store.Erase(key), log := s.log + [Deletion(key)]))
  }

  ghost predicate Init<V, E>(s: State<V, E>) {
    s.store.Valid() && s.procs == map[] && s.log == []
  }

  /** What is true of one call at every moment. */
  ghost predicate ProcInv<V(!new), E(!new)>(s0: Store<V>, s: State<V, E>, p: nat)
    requires p in s.procs
  {
    var proc := s.procs[p];
    var key := proc.call.key;
    var hits := Hits(s.log, key);
    && proc.start <= hits
    && Commits(s.log, p) == (if proc.pc.Returned? then 1 else 0)
    && match proc.pc
       case Reading(left) => 1 <= left <= proc.call.retries && proc.start + proc.call.retries - left <= hits
       case Saving(left, seen, etag, h) =>
         && 1 <= left <= proc.call.retries && proc.start + proc.call.retries - left <= h <= hits
         && proc.call.update(seen).Write?
         && etag.Some? == seen.Some? && (etag.Some? ==> etag.value < s.store.nextEtag)
         && (h == hits ==> s.store.Etag(key) == etag)
         && (s.store.Etag(key) == etag ==> s.store.Value(key) == seen)
       case Returned(v, at) =>
         && at < |s.log| && s.log[at] == Commit(p, proc.call)
         && proc.call.update(Fold(s0.Value(key), s.log[..at], key)) == Write(v)
       case Raised(_) => true
       case Conflict => proc.start + proc.call.retries <= hits
  }

  ghost predicate Inv<V(!new), E(!new)>(s0: Store<V>, s: State<V, E>) {
    && s.store.Valid()
    && (forall k :: s.store.Value(k) == Fold(s0.Value(k), s.log, k))
    && (forall i | 0 <= i < |s.log| && s.log[i].Commit? :: s.log[i].p in s.procs)
    && (forall p | p in s.procs :: ProcInv(s0, s, p))
  }

  lemma LogGrows<V, E>(initial: Option<V>, log: seq<Op<V, E>>, op: Op<V, E>, key: string, p: nat)
    ensures Hits(log + [op], key) == Hits(log, key) + if op.Key() == key then 1 else 0
    ensures Commits(log + [op], p) == Commits(log, p) + if op.Commit? && op.p == p then 1 else 0
    ensures op.Key() != key ==> Fold(initial, log + [op], key) == Fold(initial, log, key)
    ensures op == Deletion(key) ==> Fold(initial, log + [op], key) == None
    ensures op.Commit? && op.call.key == key && op.call.update(Fold(initial, log, key)).Write? ==>
              Fold(initial, log + [op], key) == Some(op.call.update(Fold(initial, log, key)).value)
  {
    assert (log + [op])[..|log + [op]| - 1] == log;
  }

  lemma {:induction false} NoCommits<V, E>(log: seq<Op<V, E>>, p: nat)
    requires forall i | 0 <= i < |log| && log[i].Commit? :: log[i].p != p
    ensures Commits(log, p) == 0
  {
    if log != [] { NoCommits(log[..|log| - 1], p); }
  }

  lemma FoldGrows<V(!new), E(!new)>(s0: Store<V>, log: seq<Op<V, E>>, op: Op<V, E>, before: Store<V>, after: Store<V>)
    requires forall k :: before.Value(k) == Fold(s0.Value(k), log, k)
    requires forall k | k != op.Key() :: after.Value(k) == before.Value(k)
    requires op.Deletion? ==> after.Value(op.k) == None
    requires op.Commit? ==> op.call.update(before.Value(op.call.key)).Write?
                            && after.Value(op.call.key) == Some(op.call.update(before.Value(op.call.key)).value)
    ensures forall k :: after.Value(k) == Fold(s0.Value(k), log + [op], k)
  {
    forall k ensures after.Value(k) == Fold(s0.Value(k), log + [op], k) {
      LogGrows(s0.Value(k), log, op, k, 0);
    }
  }

  /** A write moves every other call's view the way its invariant allows. */
  lemma OthersKeep<V(!new), E(!new)>(s0: Store<V>, s: State<V, E>, t: State<V, E>, op: Op<V, E>, q: nat)
    requires s.store.Valid() && q in s.procs && ProcInv(s0, s, q)
    requires q in t.procs && t.procs[q] == s.procs[q]
    requires t.log == s.log + [op] && (op.Commit? ==> op.p != q)
    requires t.store == if op.Deletion? then s.store.Erase(op.k) else t.store
    requires op.Commit? ==> exists v :: t.store == s.store.Put(op.call.key, v)
    ensures ProcInv(s0, t, q)
  {
    var key := s.procs[q].call.key;
    LogGrows(None, s.log, op, key, q);
    if s.procs[q].pc.Returned? {
      var at := s.procs[q].pc.at;
      assert t.log[..at] == s.log[..at];
    }
  }

  lemma CommitKeepsInv<V(!new), E(!new)>(s0: Store<V>, s: State<V, E>, p: nat, v: V)
    requires Inv(s0, s) && p in s.procs && s.procs[p].pc.Saving?
    requires s.procs[p].call.update(s.procs[p].pc.seen) == Write(v)
    requires s.store.Accepts(s.procs[p].call.key, s.procs[p].pc.etag)
    ensures Inv(s0, Step(s, DoSave(p)).value)
  {
    var proc := s.procs[p];
    var key := proc.call.key;
    var op := Commit(p, proc.call);
    var t := State(s.store.Put(key, v), s.procs[p := proc.(pc := Returned(v, |s.log|))], s.log + [op]);
    assert ProcInv(s0, s, p);
    FoldGrows(s0, s.log, op, s.store, t.store);
    assert ProcInv(s0, t, p) by {
      LogGrows(s0.Value(key), s.log, op, key, p);
      assert t.log[..|s.log|] == s.log;
    }
    forall q | q in t.procs && q != p ensures ProcInv(s0, t, q) {
      assert t.store == s.store.Put(key, v);
      OthersKeep(s0, s, t, op, q);
    }
  }

  lemma SaveKeepsInv<V(!new), E(!new)>(s0: Store<V>, s: State<V, E>, p: nat)
    requires Inv(s0, s) && Step(s, DoSave(p)).Some?
    ensures Inv(s0, Step(s, DoSave(p)).value)
  {
    var proc := s.procs[p];
    if s.store.Accepts(proc.call.key, proc.pc.etag) {
      CommitKeepsInv(s0, s, p, proc.call.update(proc.pc.seen).value);
    } else {
      var t := Step(s, DoSave(p)).value;
      forall q | q in t.procs ensures ProcInv(s0, t, q) {
        assert ProcInv(s0, s, q);
      }
    }
  }

  lemma DeleteKeepsInv<V(!new), E(!new)>(s0: Store<V>, s: State<V, E>, key: string)
    requires Inv(s0, s)
    ensures Inv(s0, Step(s, DoDelete(key)).value)
  {
    var op: Op<V, E> := Deletion(key);
    var t := s.(store := s.store.Erase(key), log := s.log + [op]);
    FoldGrows(s0, s.log, op, s.store, t.store);
    forall q | q in t.procs ensures ProcInv(s0, t, q) {
      OthersKeep(s0, s, t, op, q);
    }
  }

  lemma StepKeepsInv<V(!new), E(!new)>(s0: Store<V>, s: State<V, E>, a: Action<V, E>)
    requires Inv(s0, s) && Step(s, a).Some?
    ensures Inv(s0, Step(s, a).value)
  {
    var t := Step(s, a).value;
    match a
    case Spawn(p, call) =>
      NoCommits(s.log, p);
      forall q | q in t.procs ensures ProcInv(s0, t, q) {
        if q != p { assert ProcInv(s0, s, q); }
      }
    case DoGet(p) =>
      forall q | q in t.procs ensures ProcInv(s0, t, q) {
        assert ProcInv(s0, s, q);
      }
    case DoSave(p) => SaveKeepsInv(s0, s, p);
    case DoDelete(key) => DeleteKeepsInv(s0, s, key);
  }

  lemma RunKeepsInv<V(!new), E(!new)>(s0: State<V, E>, trace: seq<Action<V, E>>)
    requires Init(s0) && Run(Step, s0, trace).Some?
    ensures Inv(s0.store, Run(Step, s0, trace).value)
  {
    var inv := (s: State<V, E>) => Inv(s0.store, s);
    forall s, a | inv(s) && Step(s, a).Some? ensures inv(Step(s, a).value) {
      StepKeepsInv(s0.store, s, a);
    }
    InvariantOfRun(Step, inv, s0, trace);
  }

  /** No update is lost or doubled: in every interleaving of any number of calls the
      content is the fold of the committed update functions in commit order, and a call
      has committed exactly once if it returned and never otherwise; what it returned is
      its function of the value its predecessors left. */
  lemma Linearizable<V(!new), E(!new)>(s0: State<V, E>, trace: seq<Action<V, E>>, key: string, p: nat)
    requires Init(s0) && Run(Step, s0, trace).Some?
    ensures var s := Run(Step, s0, trace).value;
      && s.store.Value(key) == Fold(s0.store.Value(key), s.log, key)
      && (p in s.procs ==> Commits(s.log, p) == if s.procs[p].pc.Returned? then 1 else 0)
      && (p in s.procs && s.procs[p].pc.Returned? ==>
            var Proc(call, Returned(v, at), _) := s.procs[p];
            && at < |s.log| && s.log[at] == Commit(p, call)
            && call.update(Fold(s0.store.Value(call.key), s.log[..at], call.key)) == Write(v))
  {
    RunKeepsInv(s0, trace);
    var s := Run(Step, s0, trace).value;
    if p in s.procs { assert ProcInv(s0.store, s, p); }
  }

  /** `CasConflict` is raised only when at least `retries` other writes hit the key
      between the start of the call and its end. */
  lemma ConflictNeedsContention<V(!new), E(!new)>(s0: State<V, E>, trace: seq<Action<V, E>>, p: nat)
    requires Init(s0) && Run(Step, s0, trace).Some?
    requires var s := Run(Step, s0, trace).value; p in s.procs && s.procs[p].pc.Conflict?
    ensures var s := Run(Step, s0, trace).value;
      && Commits(s.log, p) == 0
      && Hits(s.log, s.procs[p].call.key) >= s.procs[p].start + s.procs[p].call.retries
  {
    RunKeepsInv(s0, trace);
    var s := Run(Step, s0, trace).value;
    assert ProcInv(s0.store, s, p);
  }
}
