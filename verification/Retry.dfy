/**
 Optimistic concurrency: re-read, mutate, write back, and try again on a conflict.  Whatever other
 writers do in between, the loop is one atomic update or none.
 */
module Retry {
  import opened Kube

  /** retry.DefaultRetry. */
  const ATTEMPTS := 5

  datatype Stored<T> = Stored(version: nat, value: T)

  /** One write that reached the store; an absent value is a deletion. */
  datatype Write<T> = Mine(after: Option<T>) | Rival(after: Option<T>)

  /** How one attempt meets the world: what rivals write before the read and before the write, and the replies. */
  datatype Reply = Replied | Broken | ReplyLost

  datatype Round<T> = Round(beforeGet: seq<Option<T>>, beforeUpdate: seq<Option<T>>, get: bool, update: Reply)

  datatype Result = Committed | Skipped | Vanished | Conflicted | Failed

  /** What is stored after some writes. */
  function Replay<T>(initial: Option<T>, log: seq<Write<T>>): Option<T> {
    if log == [] then initial else log[|log| - 1].after
  }

  function Rivals<T>(values: seq<Option<T>>): (r: seq<Write<T>>)
    ensures |r| == |values| && forall i :: 0 <= i < |r| ==> r[i] == Rival(values[i])
  {
    seq(|values|, i requires 0 <= i < |values| => Rival(values[i]))
  }

  /** What the rivals wrote, in order. */
  function Theirs<T>(log: seq<Write<T>>): seq<Option<T>> {
    if log == [] then []
    else
      var w := log[|log| - 1];
      Theirs(log[..|log| - 1]) + (if w.Rival? then [w.after] else [])
  }

  function Ours<T>(log: seq<Write<T>>): nat {
    if log == [] then 0 else Ours(log[..|log| - 1]) + (if log[|log| - 1].Mine? then 1 else 0)
  }

  /** Every write of ours is the mutation of what was stored at that instant. */
  ghost predicate Atomic<T>(initial: Option<T>, log: seq<Write<T>>, mutate: T -> Option<T>) {
    forall k :: 0 <= k < |log| && log[k].Mine? ==>
      && Replay(initial, log[..k]).Some?
      && log[k].after == mutate(Replay(initial, log[..k]).value)
  }

  /** Everything the rivals tried, round by round. */
  function Tried<T>(rounds: seq<Round<T>>): seq<Option<T>> {
    if rounds == [] then []
    else
      var r := rounds[|rounds| - 1];
      Tried(rounds[..|rounds| - 1]) + r.beforeGet + r.beforeUpdate
  }

  lemma {:induction false} TheirsAppend<T>(log: seq<Write<T>>, values: seq<Option<T>>)
    ensures Theirs(log + Rivals(values)) == Theirs(log) + values
    ensures Ours(log + Rivals(values)) == Ours(log)
    decreases |values|
  {
    var n := |values|;
    if n == 0 {
      assert log + Rivals(values) == log;
    } else {
      var whole := log + Rivals(values);
      assert whole[..|whole| - 1] == log + Rivals(values[..n - 1]);
      TheirsAppend(log, values[..n - 1]);
      assert values[..n - 1] + [values[n - 1]] == values;
    }
  }

  lemma AtomicAppend<T>(initial: Option<T>, log: seq<Write<T>>, w: Write<T>, mutate: T -> Option<T>)
    requires Atomic(initial, log, mutate)
    requires w.Mine? ==> Replay(initial, log).Some? && w.after == mutate(Replay(initial, log).value)
    ensures Atomic(initial, log + [w], mutate)
  {
    forall k | 0 <= k < |log| + 1 && (log + [w])[k].Mine?
      ensures Replay(initial, (log + [w])[..k]).Some?
           && (log + [w])[k].after == mutate(Replay(initial, (log + [w])[..k]).value) {
      assert (log + [w])[..k] == log[..k];
      assert k == |log| ==> log[..k] == log;
    }
  }

  lemma {:induction false} AtomicRivals<T>(initial: Option<T>, log: seq<Write<T>>, values: seq<Option<T>>, mutate: T -> Option<T>)
    requires Atomic(initial, log, mutate)
    ensures Atomic(initial, log + Rivals(values), mutate)
    decreases |values|
  {
    var n := |values|;
    if n == 0 {
      assert log + Rivals(values) == log;
    } else {
      AtomicRivals(initial, log, values[..n - 1], mutate);
      assert log + Rivals(values) == log + Rivals(values[..n - 1]) + [Rival(values[n - 1])];
      AtomicAppend(initial, log + Rivals(values[..n - 1]), Rival(values[n - 1]), mutate);
    }
  }

  /**
   No concurrent edit is lost: any view of the object that our mutation leaves alone is, after any
   atomic log, what it would be had the rivals written alone.
   */
  lemma {:induction false} NoEditLost<T, V>(initial: Option<T>, log: seq<Write<T>>, mutate: T -> Option<T>, view: Option<T> -> V)
    requires Atomic(initial, log, mutate)
    requires forall x :: view(mutate(x)) == view(Some(x))
    ensures view(Replay(initial, log)) == view(Replay(initial, Rivals(Theirs(log))))
    decreases |log|
  {
    if log != [] {
      var n := |log| - 1;
      var before, w := log[..n], log[n];
      if w.Mine? {
        forall k | 0 <= k < |before| && before[k].Mine?
          ensures Replay(initial, before[..k]).Some? && before[k].after == mutate(Replay(initial, before[..k]).value) {
          assert before[..k] == log[..k] && before[k] == log[k];
        }
        NoEditLost(initial, before, mutate, view);
        assert Theirs(log) == Theirs(before);
      } else {
        var all := Rivals(Theirs(log));
        assert Theirs(log) == Theirs(before) + [w.after];
        assert all[|all| - 1] == Rival(w.after);
      }
    }
  }

  /** What is stored after rival writes alone. */
  function After<T>(initial: Option<T>, values: seq<Option<T>>): Option<T> {
    if values == [] then initial else values[|values| - 1]
  }

  /** Nobody writes between the read and the write, and both calls are answered. */
  predicate Undisturbed<T>(r: Round<T>) {
    r.get && |r.beforeUpdate| == 0 && r.update.Replied?
  }

  lemma AfterRivals<T>(initial: Option<T>, log: seq<Write<T>>, values: seq<Option<T>>)
    ensures Replay(initial, log + Rivals(values)) == After(Replay(initial, log), values)
  {
    assert values == [] ==> log + Rivals(values) == log;
  }

  lemma {:induction false} AllTheirs<T>(log: seq<Write<T>>)
    requires Ours(log) == 0
    ensures log == Rivals(Theirs(log))
    decreases |log|
  {
    if log != [] {
      AllTheirs(log[..|log| - 1]);
    }
  }

  lemma ReplayTheirs<T>(initial: Option<T>, log: seq<Write<T>>)
    requires Ours(log) == 0
    ensures Replay(initial, log) == After(initial, Theirs(log))
  {
    hide Ours, Theirs;
    AllTheirs(log);
    AfterRivals(initial, [], Theirs(log));
    assert [] + Rivals(Theirs(log)) == log;
  }

  /** A log whose one write of ours comes last leaves the mutation of what the rivals alone had left. */
  lemma OnceLast<T>(initial: Option<T>, log: seq<Write<T>>, mutate: T -> Option<T>)
    requires Atomic(initial, log, mutate)
    requires Ours(log) == 0 || (Ours(log) == 1 && log[|log| - 1].Mine?)
    ensures
      var theirs := After(initial, Theirs(log));
      if Ours(log) == 0 then Replay(initial, log) == theirs
      else theirs.Some? && Replay(initial, log) == mutate(theirs.value)
  {
    if Ours(log) == 0 {
      ReplayTheirs(initial, log);
    } else {
      assert Ours(log[..|log| - 1]) == 0 && Theirs(log) == Theirs(log[..|log| - 1]) + [];
      ReplayTheirs(initial, log[..|log| - 1]);
    }
  }

  /** One stored object, and every write since the loop began. */
  class Store<T(==)> {
    var current: Option<Stored<T>>
    var version: nat
    ghost var initial: Option<T>
    ghost var log: seq<Write<T>>

    ghost predicate Valid()
      reads this
    {
      && (current.Some? ==> current.value.version < version)
      && Value() == Replay(initial, log)
    }

    ghost function Value(): Option<T>
      reads this
    {
      if current.Some? then Some(current.value.value) else None
    }

    constructor (value: Option<T>)
      ensures Valid() && initial == value && log == []
    {
      current := if value.Some? then Some(Stored(0, value.value)) else None;
      version := 1;
      initial, log := value, [];
    }

    method Put(after: Option<T>, ghost mine: bool)
      requires Valid()
      modifies this
      ensures Valid() && initial == old(initial) && Value() == after && version > old(version)
      ensures log == old(log) + [if mine then Mine(after) else Rival(after)]
      ensures current.Some? ==> current.value.version >= old(version)
    {
      current := if after.Some? then Some(Stored(version, after.value)) else None;
      version := version + 1;
      log := log + [if mine then Mine(after) else Rival(after)];
    }

    /** Other writers have their turn; any write of theirs shows in the version. */
    method Interfere(values: seq<Option<T>>)
      requires Valid()
      modifies this
      ensures Valid() && initial == old(initial) && log == old(log) + Rivals(values) && version >= old(version)
      ensures values == [] ==> current == old(current)
      ensures values != [] && current.Some? ==> current.value.version >= old(version)
    {
      for i := 0 to |values|
        invariant Valid() && initial == old(initial) && log == old(log) + Rivals(values[..i]) && version >= old(version)
        invariant i == 0 ==> current == old(current)
        invariant i > 0 && current.Some? ==> current.value.version >= old(version)
      {
        Put(values[i], false);
        assert Rivals(values[..i + 1]) == Rivals(values[..i]) + [Rival(values[i])];
      }
      assert values[..|values|] == values;
    }

    /** The closure handed to RetryOnConflict: read, mutate, write back if the version still stands. */
    method Attempt(mutate: T -> Option<T>, skipUnchanged: bool, ignoreMissing: bool, r: Round<T>) returns (result: Result)
      requires Valid() && Atomic(initial, log, mutate) && Ours(log) == 0
      modifies this
      ensures Valid() && initial == old(initial) && Atomic(initial, log, mutate)
      ensures Theirs(log) == old(Theirs(log)) + r.beforeGet || Theirs(log) == old(Theirs(log)) + r.beforeGet + r.beforeUpdate
      ensures result.Committed? || result.Conflicted? ==> Theirs(log) == old(Theirs(log)) + r.beforeGet + r.beforeUpdate
      ensures Ours(log) == 0 || (Ours(log) == 1 && (result.Committed? || result.Failed?))
      ensures result.Committed? ==> Ours(log) == 1
      ensures Ours(log) == 1 ==> log != [] && log[|log| - 1] == Mine(Value())
      ensures result.Skipped? ==> skipUnchanged && Value().Some? && mutate(Value().value) == Value()
      ensures result.Vanished? ==> ignoreMissing && Value().None?
      ensures result.Conflicted? ==> r.beforeUpdate != []
      ensures Undisturbed(r) && After(old(Value()), r.beforeGet).Some? ==> result.Committed? || result.Skipped?
    {
      hide Replay, Atomic;
      AfterRivals(initial, log, r.beforeGet);
      TheirsAppend(log, r.beforeGet);
      AtomicRivals(initial, log, r.beforeGet, mutate);
      Interfere(r.beforeGet);
      if !r.get { return Failed; }
      if current.None? { return if ignoreMissing then Vanished else Failed; }
      var latest := current.value;
      var after := mutate(latest.value);
      if skipUnchanged && after == Some(latest.value) { return Skipped; }
      TheirsAppend(log, r.beforeUpdate);
      AtomicRivals(initial, log, r.beforeUpdate, mutate);
      Interfere(r.beforeUpdate);
      if r.update.Broken? { return Failed; }
      if current.None? { return Failed; }
      if current.value.version != latest.version { return Conflicted; }
      ghost var rivals := log;
      AtomicAppend(initial, log, Mine(after), mutate);
      Put(after, true);
      assert log[..|rivals|] == rivals;
      return if r.update.Replied? then Committed else Failed;
    }

    /**
     retry.RetryOnConflict around a read, a mutation and a write.  At most one write is ours, it is
     the mutation of what the rivals' writes alone had left at that instant, all rival writes stay in
     order, and only rivals that write between each read and its write can exhaust the attempts.
     */
    method RetryOnConflict(mutate: T -> Option<T>, skipUnchanged: bool, ignoreMissing: bool, rounds: seq<Round<T>>)
      returns (result: Result, used: nat)
      requires Valid() && log == [] && |rounds| == ATTEMPTS
      modifies this
      ensures Valid() && initial == old(initial) && Atomic(initial, log, mutate)
      ensures used <= ATTEMPTS && Theirs(log) <= Tried(rounds[..used])
      ensures Ours(log) <= 1 && (result.Committed? ==> Ours(log) == 1)
      ensures Ours(log) == 0 ==> Value() == After(initial, Theirs(log))
      ensures Ours(log) == 1 ==> After(initial, Theirs(log)).Some? && Value() == mutate(After(initial, Theirs(log)).value)
      ensures !result.Committed? && !result.Failed? ==> Ours(log) == 0
      ensures result.Skipped? ==> skipUnchanged && Value().Some? && mutate(Value().value) == Value()
      ensures result.Vanished? ==> ignoreMissing && Value().None?
      ensures result.Conflicted? ==> used == ATTEMPTS && forall r :: r in rounds ==> r.beforeUpdate != []
      ensures Undisturbed(rounds[0]) && After(initial, rounds[0].beforeGet).Some? ==> result.Committed? || result.Skipped?
    {
      hide Replay, Atomic;
      used := 0;
      result := Conflicted;
      EmptyLogAtomic(initial, mutate);
      while used < ATTEMPTS && result.Conflicted?
        invariant Valid() && initial == old(initial) && Atomic(initial, log, mutate) && used <= ATTEMPTS
        invariant Theirs(log) <= Tried(rounds[..used])
        invariant result.Conflicted? ==> Ours(log) == 0 && Theirs(log) == Tried(rounds[..used])
        invariant Ours(log) <= 1 && (result.Committed? ==> Ours(log) == 1)
        invariant Ours(log) == 1 ==> log != [] && log[|log| - 1] == Mine(Value())
        invariant used == 0 ==> Value() == initial && result.Conflicted?
        invariant used > 0 && Undisturbed(rounds[0]) && After(initial, rounds[0].beforeGet).Some? ==> result.Committed? || result.Skipped?
        invariant !result.Committed? && !result.Failed? ==> Ours(log) == 0
        invariant result.Skipped? ==> skipUnchanged && Value().Some? && mutate(Value().value) == Value()
        invariant result.Vanished? ==> ignoreMissing && Value().None?
        invariant result.Conflicted? ==> forall i :: 0 <= i < used ==> rounds[i].beforeUpdate != []
        decreases ATTEMPTS - used
      {
        assert rounds[..used + 1][..used] == rounds[..used];
        result := Attempt(mutate, skipUnchanged, ignoreMissing, rounds[used]);
        used := used + 1;
      }
      OnceLast(initial, log, mutate);
    }
  }

  lemma EmptyLogAtomic<T>(initial: Option<T>, mutate: T -> Option<T>)
    ensures Atomic(initial, [], mutate) && Replay(initial, []) == initial
  {
  }

  // ---------------------------------------------------------------- what the loops are used for

  /** Any of the operator's objects: a spec and metadata that users edit, a status that the operator writes. */
  datatype Object<S, U> = Object(spec: S, generation: int, deleting: bool, finalizers: set<string>, status: U)

  function StatusWrite<S, U>(report: Object<S, U> -> U): Object<S, U> -> Option<Object<S, U>> {
    (x: Object<S, U>) => Some(x.(status := report(x)))
  }

  datatype Besides<S> = Besides(spec: S, generation: int, deleting: bool, finalizers: set<string>)

  /** Everything but the status. */
  function BesidesStatus<S, U>(x: Option<Object<S, U>>): Option<Besides<S>> {
    match x
    case None => None
    case Some(o) => Some(Besides(o.spec, o.generation, o.deleting, o.finalizers))
  }

  /**
   The status writers (updateClusterStatus, updateConnectionStatus and the three child writers,
   which skip a write that changes nothing): concurrent edits of spec, finalizers or deletion mark
   all survive, and a write stores the very object that the rivals alone had left, with the report on
   it for its status.
   */
  method UpdateStatus<S(==), U(==)>(store: Store<Object<S, U>>, report: Object<S, U> -> U, skipUnchanged: bool,
                                    rounds: seq<Round<Object<S, U>>>)
    returns (result: Result)
    requires store.Valid() && store.log == [] && |rounds| == ATTEMPTS
    modifies store
    ensures store.Valid() && store.initial == old(store.initial)
    ensures Atomic(store.initial, store.log, StatusWrite(report)) && Theirs(store.log) <= Tried(rounds)
    ensures BesidesStatus(store.Value()) == BesidesStatus(Replay(store.initial, Rivals(Theirs(store.log))))
    ensures Ours(store.log) == 1 || (Ours(store.log) == 0 && !result.Committed?)
    ensures Ours(store.log) == 0 ==> store.Value() == After(store.initial, Theirs(store.log))
    ensures Ours(store.log) == 1 ==>
      var theirs := After(store.initial, Theirs(store.log));
      theirs.Some? && store.Value() == Some(theirs.value.(status := report(theirs.value)))
    ensures result.Skipped? ==> store.Value().Some? && report(store.Value().value) == store.Value().value.status
    ensures result.Conflicted? ==> forall r :: r in rounds ==> r.beforeUpdate != []
  {
    var used;
    result, used := store.RetryOnConflict(StatusWrite(report), skipUnchanged, false, rounds);
    TriedPrefix(rounds, used);
    NoEditLost(store.initial, store.log, StatusWrite(report), BesidesStatus<S, U>);
  }

  lemma {:induction false} TriedPrefix<T>(rounds: seq<Round<T>>, n: nat)
    requires n <= |rounds|
    ensures Tried(rounds[..n]) <= Tried(rounds)
    decreases |rounds|
  {
    if n == |rounds| {
      assert rounds[..n] == rounds;
    } else {
      var rest := rounds[..|rounds| - 1];
      TriedPrefix(rest, n);
      assert rest[..n] == rounds[..n];
    }
  }

  /** removeFinalizers: storing an object under deletion with no finalizer left removes it. */
  function FinalizerRemoval<S, U>(x: Object<S, U>): Option<Object<S, U>> {
    var rest := x.finalizers - {FINALIZER, LEGACY_FINALIZER};
    if x.deleting && rest == {} then None else Some(x.(finalizers := rest))
  }

  /** What the operator's two finalizers are no part of. */
  datatype Rest<S, U> = Rest(spec: S, generation: int, deleting: bool, status: U, finalizers: set<string>)

  function Others<S, U>(x: Object<S, U>): Rest<S, U> {
    Rest(x.spec, x.generation, x.deleting, x.status, x.finalizers - {FINALIZER, LEGACY_FINALIZER})
  }

  /** Under deletion, and nobody but the operator holds it. */
  predicate OnlyOurs<S, U>(x: Object<S, U>) {
    x.deleting && forall f :: f in x.finalizers ==> f == FINALIZER || f == LEGACY_FINALIZER
  }

  lemma RemovalTakesOurs<S, U>(x: Object<S, U>)
    ensures FinalizerRemoval(x).None? <==> OnlyOurs(x)
    ensures FinalizerRemoval(x).Some? ==>
      var y := FinalizerRemoval(x).value;
      Others(y) == Others(x) && FINALIZER !in y.finalizers && LEGACY_FINALIZER !in y.finalizers
  {
    var rest := x.finalizers - {FINALIZER, LEGACY_FINALIZER};
    assert rest - {FINALIZER, LEGACY_FINALIZER} == rest;
    assert forall f :: f in x.finalizers ==> f in rest || f in {FINALIZER, LEGACY_FINALIZER};
  }

  /**
   removeFinalizers of the connection reconciler.  Spec, generation, deletion mark, status and the finalizers of others are
   those of the rival writes alone; a write of ours leaves neither operator finalizer; and the object is gone by it exactly
   if it was under deletion and held by nobody else.
   */
  method RemoveFinalizers<S(==), U(==)>(store: Store<Object<S, U>>, rounds: seq<Round<Object<S, U>>>)
    returns (result: Result)
    requires store.Valid() && store.log == [] && |rounds| == ATTEMPTS
    modifies store
    ensures store.Valid() && store.initial == old(store.initial)
    ensures Theirs(store.log) <= Tried(rounds)
    ensures Ours(store.log) == 1 || (Ours(store.log) == 0 && !result.Committed?)
    ensures Ours(store.log) == 0 ==> store.Value() == After(store.initial, Theirs(store.log))
    ensures Ours(store.log) == 1 ==>
      var theirs := After(store.initial, Theirs(store.log));
      theirs.Some? && (store.Value().None? <==> OnlyOurs(theirs.value))
    ensures store.Value().Some? ==>
      var theirs := After(store.initial, Theirs(store.log));
      theirs.Some? && Others(store.Value().value) == Others(theirs.value)
    ensures (Ours(store.log) == 1 && store.Value().Some?) ==>
      FINALIZER !in store.Value().value.finalizers && LEGACY_FINALIZER !in store.Value().value.finalizers
    ensures result.Vanished? ==> store.Value().None?
    ensures !result.Skipped?
    ensures result.Conflicted? ==> forall r :: r in rounds ==> r.beforeUpdate != []
    ensures Undisturbed(rounds[0]) && After(store.initial, rounds[0].beforeGet).Some? ==> result.Committed?
  {
    var used;
    result, used := store.RetryOnConflict(FinalizerRemoval, false, true, rounds);
    TriedPrefix(rounds, used);
    if Ours(store.log) == 1 {
      RemovalTakesOurs(After(store.initial, Theirs(store.log)).value);
    }
  }
}
