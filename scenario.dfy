/**
 * Small stores driven through the public operations: a counter with one
 * listener, three listeners notified in subscription order, and a
 * listener whose own `set` aborts a sweep.
 */
module Scenarios {
  import opened Patch
  import opened Trace
  import opened Notification
  import opened StoreEngine

  /**
   * `set` of a non-empty patch from outside any pass, on a store whose
   * listeners never call `set` nor an unsubscribe function: the pass ends
   * after its first round with exactly the patch applied, and it called
   * every listener subscribed before it and not unsubscribed, in
   * subscription order, once each, with the new value.
   */
  method QuietSet<K(==,!new), V(!new), L(!new)>(store: Store<K, V, L>, patch: map<K, V>)
    requires store.Valid() && !store.running && store.Silent() && store.Loyal() && store.fuel > 0 && |patch| > 0
    modifies store
    ensures store.Valid() && !store.running
    ensures store.value == Apply(old(store.value), patch)
    ensures old(store.trace) + [Submit(patch)] <= store.trace && old(store.listeners) <= store.listeners
    ensures store.cancelled == old(store.cancelled)
    ensures store.Stable(|old(store.trace)| + 1, old(store.nextHandle))
    ensures Calls(store.trace, |old(store.trace)| + 1, store.value, old(store.nextHandle))
  {
    store.Set(patch);
  }

  /**
   * `set` of a non-empty patch from outside any pass, on a store with fuel:
   * the value is that of the pass's last round, reached from the patched
   * value through rounds each stopped by a listener; unless the pass is
   * still running, the value is stable for every listener subscribed before
   * the call; and every listener called had its unsubscribe calls take
   * effect before the next listener was called, and no other handle was
   * newly unsubscribed.
   */
  method OutsideSet<K(==,!new), V(!new), L(!new)>(store: Store<K, V, L>, patch: map<K, V>)
    requires store.Valid() && !store.running && store.fuel > 0 && |patch| > 0
    modifies store
    ensures store.Valid() && old(store.listeners) <= store.listeners && old(store.trace) <= store.trace
    ensures exists n: nat :: n < store.fuel && AfterStops(Apply(old(store.value), patch), n, store.value, store.behaviour)
                             && (store.running ==> n == store.fuel - 1 && Stops(store.value, store.settled, store.behaviour))
    ensures !store.running ==> StableIn(store.Now(), |old(store.trace)| + 1, old(store.nextHandle), store.behaviour)
    ensures UnsubscribesKept(store.trace, |old(store.trace)| + 1, old(store.cancelled).Keys, store.cancelled.Keys,
                             old(store.nextHandle), store.behaviour)
    ensures store.Loyal() ==> store.cancelled == old(store.cancelled)
    ensures store.Silent() ==> !store.running && store.value == Apply(old(store.value), patch)
  {
    store.Set(patch);
  }

  /**
   * `set` of a non-empty patch from outside any pass, on a store whose
   * listeners never call `set` but may call unsubscribe functions: the pass
   * ends after its first round with exactly the patch applied; it called
   * every listener subscribed before it and not unsubscribed, in
   * subscription order, once each, with the new value; and the unsubscribe
   * calls of each listener called took effect before the next one was
   * called, and were the only new ones.
   */
  method SilentSet<K(==,!new), V(!new), L(!new)>(store: Store<K, V, L>, patch: map<K, V>)
    requires store.Valid() && !store.running && store.Silent() && store.fuel > 0 && |patch| > 0
    modifies store
    ensures store.Valid() && !store.running
    ensures store.value == Apply(old(store.value), patch)
    ensures old(store.trace) + [Submit(patch)] <= store.trace && old(store.listeners) <= store.listeners
    ensures StableIn(store.Now(), |old(store.trace)| + 1, old(store.nextHandle), store.behaviour)
    ensures Calls(store.trace, |old(store.trace)| + 1, store.value, old(store.nextHandle))
    ensures UnsubscribesKept(store.trace, |old(store.trace)| + 1, old(store.cancelled).Keys, store.cancelled.Keys,
                             old(store.nextHandle), store.behaviour)
  {
    store.Set(patch);
  }

  /** A listener that only reads the value it is handed. */
  function Passive(l: nat, v: map<string, int>): (r: seq<Command<string, int, nat>>)
    ensures Quiet(r) && NoUnsubscribe(r)
  {
    []
  }

  /** `createStore(() => init)` whose listeners only read, then `subscribe(listener)`. */
  method PassiveStore(init: map<string, int>, listener: nat) returns (store: Store<string, int, nat>, handle: nat)
    ensures store.Valid() && !store.running && store.Silent() && store.Loyal() && store.fuel == 1
    ensures store.value == init && store.trace == [] && store.cancelled == map[]
    ensures handle == 0 && store.nextHandle == 1 && store.listeners == [listener] && fresh(store)
  {
    store := new Store(init, Passive, 1);
    handle := store.Subscribe(listener);
  }

  /**
   * On the counter, `set({count: 1})` and then `set({})`: the listener was
   * called with `{count: 1}`, and the empty update changed nothing.
   */
  method CounterFirst(store: Store<string, int, nat>)
    requires store.Valid() && !store.running && store.Silent() && store.Loyal() && store.fuel == 1
    requires store.value == map["count" := 0] && store.trace == [] && store.cancelled == map[]
    requires store.nextHandle == 1
    modifies store
    ensures store.Valid() && !store.running && store.value == map["count" := 1]
    ensures store.cancelled == map[] && old(store.listeners) <= store.listeners
    ensures Notified(store.trace, 1, 0, store.listeners[0], map["count" := 1])
    ensures store.trace[0] == Submit(map["count" := 1]) && Calls(store.trace, 1, store.value, 1)
  {
    QuietSet(store, map["count" := 1]);
    assert store.Stable(1, 1);
    ghost var before := store.trace;
    store.Set(map[]);
    assert store.trace == before;
  }

  /**
   * Then unsubscribe and `set({count: 2})`: the value is `{count: 2}`, and
   * the listener was not called after its unsubscribe.
   */
  method CounterSecond(store: Store<string, int, nat>, handle: nat) returns (ghost cancelledAt: nat)
    requires store.Valid() && !store.running && store.Silent() && store.Loyal() && store.fuel == 1
    requires store.value == map["count" := 1] && handle < store.nextHandle
    modifies store
    ensures store.Valid() && !store.running && store.value == map["count" := 2]
    ensures old(store.trace) <= store.trace && old(store.listeners) <= store.listeners
    ensures cancelledAt == |old(store.trace)| && cancelledAt < |store.trace| && store.trace[cancelledAt] == Cancel(handle)
    ensures forall k :: cancelledAt < k < |store.trace| && store.trace[k].Notify? ==> store.trace[k].handle != handle
  {
    store.Unsubscribe(handle);
    cancelledAt := |old(store.trace)|;
    ghost var t1 := store.trace;
    CounterSetTwo(store);
    store.SilentAfterUnsubscribe();
    NoCallAfter(t1, store.trace, cancelledAt, handle);
  }

  /** `set({count: 2})` on the counter at `{count: 1}`. */
  method CounterSetTwo(store: Store<string, int, nat>)
    requires store.Valid() && !store.running && store.Silent() && store.Loyal() && store.fuel == 1
    requires store.value == map["count" := 1]
    modifies store
    ensures store.Valid() && !store.running && store.value == map["count" := 2]
    ensures old(store.trace) <= store.trace && old(store.listeners) <= store.listeners
  {
    QuietSet(store, map["count" := 2]);
  }

  /** A log with no call after an unsubscribe, extending one that ends with the unsubscribe of `h` at `c`. */
  lemma NoCallAfter(t1: seq<Event<string, int, nat>>, t: seq<Event<string, int, nat>>, c: nat, h: nat)
    requires t1 <= t && c + 1 == |t1| && t1[c] == Cancel(h) && NoNotifyAfterCancel(t)
    ensures c < |t| && t[c] == Cancel(h)
    ensures forall k :: c < k < |t| && t[k].Notify? ==> t[k].handle != h
  {
    assert t[c] == t1[c];
  }

  /**
   * A log that starts with an accepted patch and the calls of one pass over
   * slots below 1, then the unsubscribe of slot 0 at `c` and no call of
   * slot 0 after it: the call of slot 0 at `at` is its only one.
   */
  lemma {:induction false} CalledOnce(t1: seq<Event<string, int, nat>>, t: seq<Event<string, int, nat>>, v: map<string, int>,
                                      at: nat, c: nat)
    requires t1 <= t && 0 < |t1| && t1[0].Submit? && Calls(t1, 1, v, 1)
    requires 1 <= at < |t1| && t1[at].Notify?
    requires c == |t1| < |t| && t[c] == Cancel(0)
    requires forall k :: c < k < |t| && t[k].Notify? ==> t[k].handle != 0
    ensures forall k :: 0 <= k < |t| && t[k].Notify? && t[k].handle == 0 ==> k == at
  {
    forall k | 0 <= k < |t| && t[k].Notify? && t[k].handle == 0
      ensures k == at
    {
      assert k < |t1| && t[k] == t1[k];
      CallsInOrder(t1, 1, v, 1, k, at);
    }
  }

  /**
   * `createStore(() => ({count: 0}))`, subscribe a listener, `set({count: 1})`,
   * `get()`, `set({})`, unsubscribe, `set({count: 2})`, `get()`: the gets
   * return `{count: 1}` and `{count: 2}`, and the listener was called
   * exactly once, with `{count: 1}`, before its unsubscribe.
   */
  method CounterScenario()
    returns (store: Store<string, int, nat>, afterFirst: map<string, int>, final: map<string, int>,
             ghost calledAt: nat, ghost cancelledAt: nat)
    ensures afterFirst == map["count" := 1] && final == map["count" := 2]
    ensures !store.running && |store.listeners| > 0 && store.listeners[0] == 7
    ensures calledAt < cancelledAt < |store.trace|
    ensures CallOf(store.trace[calledAt], 0, 7, map["count" := 1]) && store.trace[cancelledAt] == Cancel(0)
    ensures forall k :: 0 <= k < |store.trace| && store.trace[k].Notify? && store.trace[k].handle == 0 ==> k == calledAt
  {
    var unsubscribe;
    store, unsubscribe := PassiveStore(map["count" := 0], 7);
    CounterFirst(store);
    afterFirst := store.Get();
    ghost var t1, l1 := store.trace, store.listeners;
    cancelledAt := CounterSecond(store, unsubscribe);
    final := store.Get();
    assert l1 <= store.listeners;
    calledAt :| 1 <= calledAt < |t1| && CallOf(t1[calledAt], 0, 7, map["count" := 1]);
    CalledOnce(t1, store.trace, afterFirst, calledAt, cancelledAt);
    assert store.trace[calledAt] == t1[calledAt];
  }

  /** `createStore(() => ({}))` whose listeners only read, then subscribe 10, 20 and 30. */
  method ThreeListeners() returns (store: Store<string, int, nat>)
    ensures store.Valid() && !store.running && store.Silent() && store.Loyal() && store.fuel == 1
    ensures store.value == map[] && store.trace == [] && store.cancelled == map[]
    ensures store.nextHandle == 3 && store.listeners == [10, 20, 30] && fresh(store)
  {
    var h;
    store, h := PassiveStore(map[], 10);
    h := store.Subscribe(20);
    h := store.Subscribe(30);
  }

  /** A value stable for the three listeners 10, 20 and 30 reached each of them. */
  lemma ThreeReached(s: Snapshot<string, int, nat>, behaviour: (nat, map<string, int>) -> seq<Command<string, int, nat>>)
    requires StableIn(s, 1, 3, behaviour) && s.cancelled == map[]
    requires [10, 20, 30] <= s.listeners
    ensures Notified(s.trace, 1, 0, 10, s.value) && Notified(s.trace, 1, 1, 20, s.value) && Notified(s.trace, 1, 2, 30, s.value)
  {
    assert s.listeners[0] == 10 && s.listeners[1] == 20 && s.listeners[2] == 30;
  }

  /**
   * Calls of one sweep with `v` to slots below handle 3 that reached slots
   * 0, 1 and 2 with listeners 10, 20 and 30 reached them in that order.
   */
  lemma ThreeInOrder(t: seq<Event<string, int, nat>>, v: map<string, int>)
    requires Calls(t, 1, v, 3)
    requires Notified(t, 1, 0, 10, v) && Notified(t, 1, 1, 20, v) && Notified(t, 1, 2, 30, v)
    ensures exists a, b, c :: 1 <= a < b < c < |t| && CallOf(t[a], 0, 10, v) && CallOf(t[b], 1, 20, v) && CallOf(t[c], 2, 30, v)
  {
    var a :| 1 <= a < |t| && CallOf(t[a], 0, 10, v);
    var b :| 1 <= b < |t| && CallOf(t[b], 1, 20, v);
    var c :| 1 <= c < |t| && CallOf(t[c], 2, 30, v);
    CallsInOrder(t, 1, v, 3, a, b);
    CallsInOrder(t, 1, v, 3, b, c);
  }

  /**
   * Three listeners that only read, subscribed in the order 10, 20, 30,
   * then `set({x: 0})`: each was called with `{x: 0}`, in subscription
   * order, and the pass was that one sweep: every call it made handed out
   * `{x: 0}`, to one of those three slots, in increasing slot order and so
   * never twice to the same slot.
   */
  method InOrder() returns (store: Store<string, int, nat>, final: map<string, int>)
    ensures final == map["x" := 0] && !store.running
    ensures exists a, b, c :: 1 <= a < b < c < |store.trace|
              && CallOf(store.trace[a], 0, 10, final)
              && CallOf(store.trace[b], 1, 20, final)
              && CallOf(store.trace[c], 2, 30, final)
    ensures Calls(store.trace, 1, final, 3)
  {
    store := ThreeListeners();
    ThreeSet(store);
    final := store.Get();
    ThreeReached(store.Now(), store.behaviour);
    ThreeInOrder(store.trace, final);
  }

  /** `set({x: 0})` on the store of the three listeners that only read: one sweep, from log position 1. */
  method ThreeSet(store: Store<string, int, nat>)
    requires store.Valid() && !store.running && store.Silent() && store.Loyal() && store.fuel == 1
    requires store.value == map[] && store.trace == [] && store.cancelled == map[]
    requires store.nextHandle == 3 && store.listeners == [10, 20, 30]
    modifies store
    ensures store.Valid() && !store.running && store.value == map["x" := 0]
    ensures StableIn(store.Now(), 1, 3, store.behaviour) && store.cancelled == map[] && [10, 20, 30] <= store.listeners
    ensures Calls(store.trace, 1, store.value, 3)
  {
    QuietSet(store, map["x" := 0]);
  }

  /**
   * Listener 1 sets `x` to 1 whenever it sees another `x`; every other
   * listener only reads.
   */
  function Echo(l: nat, v: map<string, int>): (r: seq<Command<string, int, nat>>)
    ensures NoUnsubscribe(r)
    ensures Quiet(r) <==> l != 1 || ("x" in v && v["x"] == 1)
  {
    if l == 1 && !("x" in v && v["x"] == 1) then
      var r := [CallSet(map["x" := 1])];
      assert |r[0].patch| == |r[0].patch.Keys| == |{"x"}| == 1;
      r
    else []
  }

  /** `createStore(() => ({}))` with `Echo` listeners, then subscribe 1 and 2. */
  method EchoStore() returns (store: Store<string, int, nat>)
    ensures store.Valid() && !store.running && store.Loyal() && store.behaviour == Echo && store.fuel == 2
    ensures store.value == map[] && store.trace == [] && store.cancelled == map[]
    ensures store.nextHandle == 2 && store.listeners == [1, 2]
    ensures fresh(store)
  {
    store := new Store(map[], Echo, 2);
    var h := store.Subscribe(1);
    h := store.Subscribe(2);
  }

  /** `set({x: 0})` on `{}` gives `{x: 0}`. */
  lemma FirstValue()
    ensures Apply(map[], map["x" := 0]) == map["x" := 0]
  {
    assert Apply(map[], map["x" := 0]).Keys == {"x"};
  }

  /** `set({x: 1})` on `{x: 0}` gives `{x: 1}`. */
  lemma SecondValue()
    ensures Apply(map["x" := 0], map["x" := 1]) == map["x" := 1]
  {
    assert Apply(map["x" := 0], map["x" := 1]).Keys == {"x"};
  }

  /** A round with value `u` that listener 1 stopped hands the next round a value with `x` at 1. */
  lemma EchoStop(u: map<string, int>, w: map<string, int>)
    requires Stops(u, w, Echo)
    ensures "x" in w && w["x"] == 1
  {
    var l :| !Quiet(Echo(l, u)) && w == ApplyAll(u, SetPatches(Echo(l, u)));
    var p := map["x" := 1];
    assert Echo(l, u) == [CallSet(p)];
    assert SetPatches(Echo(l, u)) == [p] by {
      assert |p| == |p.Keys| == |{"x"}| == 1;
    }
    assert ApplyAll(u, [p]) == Apply(ApplyAll(u, []), p);
  }

  /** No `Echo` listener stops a round whose value has `x` at 1. */
  lemma EchoFixed(u: map<string, int>, w: map<string, int>)
    requires "x" in u && u["x"] == 1
    ensures !Stops(u, w, Echo)
  {
  }

  /**
   * A pass of the `Echo` store with fuel 2 that started from `{x: 0}`
   * ended: a second round is never stopped, as its value has `x` at 1.
   */
  lemma EchoPassEnds(s0: map<string, int>, fuel: nat, behaviour: (nat, map<string, int>) -> seq<Command<string, int, nat>>,
                     value: map<string, int>, settled: map<string, int>, running: bool)
    requires s0 == map["x" := 0] && fuel == 2 && behaviour == Echo
    requires fuel > 0 ==> exists n: nat :: n < fuel && AfterStops(s0, n, value, behaviour)
                                           && (running ==> n == fuel - 1 && Stops(value, settled, behaviour))
    ensures !running
  {
    var n: nat :| n < 2 && AfterStops(s0, n, value, Echo) && (running ==> n == 1 && Stops(value, settled, Echo));
    if n == 1 {
      var u :| AfterStops(s0, 0, u, Echo) && Stops(u, value, Echo);
      EchoStop(u, value);
      EchoFixed(value, settled);
    }
  }

  /** A value stable for the `Echo` listeners 1 and 2 has `x` at 1, and reached both. */
  lemma EchoSettled(s: Snapshot<string, int, nat>)
    requires StableIn(s, 1, 2, Echo) && s.cancelled == map[]
    requires [1, 2] <= s.listeners
    ensures "x" in s.value && s.value["x"] == 1
    ensures Notified(s.trace, 1, 0, 1, s.value) && Notified(s.trace, 1, 1, 2, s.value)
  {
    assert s.listeners[0] == 1 && s.listeners[1] == 2;
  }

  /**
   * Listeners 1 and then 2 subscribed to `createStore(() => ({}))`, then
   * `set({x: 0})`. Listener 1's `set` while it is being notified aborts
   * the sweep and starts another round. When the pass has ended, `x` is 1,
   * and both listeners were called with that final value.
   */
  method ReentrantAbort() returns (store: Store<string, int, nat>, final: map<string, int>)
    ensures [1, 2] <= store.listeners && store.cancelled == map[]
    ensures !store.running && final == store.value && "x" in final && final["x"] == 1
    ensures Notified(store.trace, 1, 0, 1, final) && Notified(store.trace, 1, 1, 2, final)
  {
    store := EchoStore();
    EchoSet(store);
    final := store.Get();
    EchoSettled(store.Now());
  }

  /** `set({x: 0})` on the `Echo` store: the pass ends, with a value stable for listeners 1 and 2. */
  method EchoSet(store: Store<string, int, nat>)
    requires store.Valid() && !store.running && store.Loyal() && store.behaviour == Echo && store.fuel == 2
    requires store.value == map[] && store.trace == [] && store.cancelled == map[]
    requires store.nextHandle == 2 && store.listeners == [1, 2]
    modifies store
    ensures store.Valid() && !store.running && store.Stable(1, 2)
    ensures [1, 2] <= store.listeners && store.cancelled == map[]
  {
    OutsideSet(store, map["x" := 0]);
    FirstValue();
    EchoPassEnds(Apply(map[], map["x" := 0]), store.fuel, store.behaviour, store.value, store.settled, store.running);
  }

  /** Listener calls with `{a: 1}` set `{a: 2, b: 3}`; other values are only read. */
  function Bump(l: nat, v: map<string, int>): (r: seq<Command<string, int, nat>>)
    ensures NoUnsubscribe(r)
    ensures Quiet(r) <==> !("a" in v && v["a"] == 1)
  {
    if "a" in v && v["a"] == 1 then
      var r := [CallSet(map["a" := 2, "b" := 3])];
      assert "a" in r[0].patch;
      r
    else []
  }

  /** A round with value `{a: 1}` that a `Bump` listener stopped hands the next round `{a: 2, b: 3}`. */
  lemma BumpStop(w: map<string, int>)
    requires Stops(map["a" := 1], w, Bump)
    ensures w == map["a" := 2, "b" := 3]
  {
    var u, p := map["a" := 1], map["a" := 2, "b" := 3];
    var l :| !Quiet(Bump(l, u)) && w == ApplyAll(u, SetPatches(Bump(l, u)));
    assert Bump(l, u) == [CallSet(p)];
    assert SetPatches(Bump(l, u)) == [p] by {
      assert "a" in p;
    }
    assert ApplyAll(u, [p]) == Apply(ApplyAll(u, []), p);
  }

  /** The first round of `set({a: 1})` on `{a: 0}` has the value `{a: 1}`. */
  lemma BumpStart()
    ensures Apply(map["a" := 0], map["a" := 1]) == map["a" := 1]
  {
    assert Apply(map["a" := 0], map["a" := 1]).Keys == {"a"};
  }

  /** A value stable for a `Bump` listener subscribed first does not have `a` at 1. */
  lemma BumpSettled(s: Snapshot<string, int, nat>)
    requires StableIn(s, 1, 1, Bump) && s.cancelled == map[] && |s.listeners| > 0
    ensures !("a" in s.value && s.value["a"] == 1)
  {
    assert 0 !in s.cancelled;
  }

  /**
   * A pass of the `Bump` store with fuel 2 that started from `{a: 1}` and
   * left a value stable for its listener once it ended: the first round was
   * stopped, the second was not, and the pass ended with `{a: 2, b: 3}`.
   */
  lemma BumpPassEnds(s0: map<string, int>, fuel: nat, behaviour: (nat, map<string, int>) -> seq<Command<string, int, nat>>,
                     s: Snapshot<string, int, nat>, running: bool)
    requires s0 == map["a" := 1] && fuel == 2 && behaviour == Bump
    requires fuel > 0 ==> exists n: nat :: n < fuel && AfterStops(s0, n, s.value, behaviour)
                                           && (running ==> n == fuel - 1 && Stops(s.value, s.settled, behaviour))
    requires !running ==> StableIn(s, 1, 1, behaviour)
    requires s.cancelled == map[] && |s.listeners| > 0
    ensures !running && s.value == map["a" := 2, "b" := 3]
  {
    var n: nat :| n < 2 && AfterStops(s0, n, s.value, Bump) && (running ==> n == 1 && Stops(s.value, s.settled, Bump));
    BumpAfter(n, s.value);
    if n == 1 {
      BumpFixed(s.value, s.settled);
    }
    if !running {
      BumpSettled(s);
    }
  }

  /** The value of the first or second round of a pass of the `Bump` store that started from `{a: 1}`. */
  lemma BumpAfter(n: nat, v: map<string, int>)
    requires n < 2 && AfterStops(map["a" := 1], n, v, Bump)
    ensures n == 0 ==> "a" in v && v["a"] == 1
    ensures n == 1 ==> v == map["a" := 2, "b" := 3] && v["a"] == 2
  {
    if n == 1 {
      var u :| AfterStops(map["a" := 1], 0, u, Bump) && Stops(u, v, Bump);
      BumpStop(v);
    }
  }

  /** No `Bump` listener stops a round whose value does not have `a` at 1. */
  lemma BumpFixed(u: map<string, int>, w: map<string, int>)
    requires !("a" in u && u["a"] == 1)
    ensures !Stops(u, w, Bump)
  {
  }

  /**
   * `createStore(() => ({a: 0}))` with one listener that sets `{a: 2, b: 3}`
   * when it sees `a` at 1, then `set({a: 1})`: the listener's `set` during
   * the sweep is merged in, and `get()` returns `{a: 2, b: 3}`.
   */
  method MergedReentrantSet() returns (store: Store<string, int, nat>, final: map<string, int>)
    ensures !store.running && final == map["a" := 2, "b" := 3] && "b" in final
  {
    store := BumpStore();
    BumpSet(store);
    final := store.Get();
  }

  /** `createStore(() => ({a: 0}))` with `Bump` listeners, then subscribe listener 5. */
  method BumpStore() returns (store: Store<string, int, nat>)
    ensures store.Valid() && !store.running && store.Loyal() && store.behaviour == Bump && store.fuel == 2
    ensures store.value == map["a" := 0] && store.trace == [] && store.cancelled == map[]
    ensures store.nextHandle == 1 && store.listeners == [5] && fresh(store)
  {
    store := new Store(map["a" := 0], Bump, 2);
    var h := store.Subscribe(5);
  }

  /** `set({a: 1})` on the `Bump` store: the pass ends with `{a: 2, b: 3}`. */
  method BumpSet(store: Store<string, int, nat>)
    requires store.Valid() && !store.running && store.Loyal() && store.behaviour == Bump && store.fuel == 2
    requires store.value == map["a" := 0] && store.trace == [] && store.cancelled == map[]
    requires store.nextHandle == 1 && store.listeners == [5]
    modifies store
    ensures store.Valid() && !store.running && store.value == map["a" := 2, "b" := 3]
  {
    OutsideSet(store, map["a" := 1]);
    BumpStart();
    BumpPassEnds(Apply(map["a" := 0], map["a" := 1]), store.fuel, store.behaviour, store.Now(), store.running);
  }

  /** Every listener unsubscribes itself, its own handle being its name, the first time it is called. */
  function Leave(l: nat, v: map<string, int>): (r: seq<Command<string, int, nat>>)
    ensures Quiet(r) && Unsubscribes(r) == {l}
  {
    var r: seq<Command<string, int, nat>> := [CallUnsubscribe(l)];
    assert r[1..] == [];
    r
  }

  /** A log in which listener 0 of `Leave` was called, and its unsubscribe took effect. */
  lemma LeaveCalled(t: seq<Event<string, int, nat>>, c: set<nat>, v: map<string, int>)
    requires Notified(t, 1, 0, 0, v) && Honoured(t, 1, c, Leave) && IssuedBefore(t, 1, 1)
    ensures 0 in c
  {
    var k :| 1 <= k < |t| && CallOf(t[k], 0, 0, v);
    UnsubscribedSinceHas(t, 1, Leave, k);
    CancelsWithin(Leave(0, v), t[k].issued);
    assert 0 in Issued(Unsubscribes(Leave(0, v)), t[k].issued);
  }

  /**
   * After a pass that ended, the `Leave` listener subscribed first has
   * unsubscribed itself. `trace` and `cancelled` are those of `s`, and `t0`,
   * `h0` and `c0` where the pass started.
   */
  lemma LeaveGone(s: Snapshot<string, int, nat>, trace: seq<Event<string, int, nat>>, cancelled: set<nat>,
                  t0: nat, h0: nat, c0: set<nat>, behaviour: (nat, map<string, int>) -> seq<Command<string, int, nat>>)
    requires trace == s.trace && cancelled == s.cancelled.Keys && t0 == 1 && h0 == 1 && behaviour == Leave
    requires StableIn(s, t0, h0, behaviour) && UnsubscribesKept(trace, t0, c0, cancelled, h0, behaviour)
    requires [0] <= s.listeners
    ensures 0 in s.cancelled
  {
    if Notified(s.trace, 1, 0, 0, s.value) {
      LeaveCalled(s.trace, s.cancelled.Keys, s.value);
    }
  }

  /** A log whose position `c` holds the unsubscribe of slot `h`, followed by no call of slot `h`. */
  lemma NoCallFrom(t1: seq<Event<string, int, nat>>, t: seq<Event<string, int, nat>>, c: nat, h: nat)
    requires t1 <= t && c < |t1| && t1[c] == Cancel(h) && NoNotifyAfterCancel(t)
    ensures forall k :: |t1| <= k < |t| && t[k].Notify? ==> t[k].handle != h
  {
    assert t[c] == t1[c];
  }

  /**
   * `createStore(() => ({}))`, subscribe a listener that calls its own
   * unsubscribe function when notified, `set({x: 0})`, then `set({x: 1})`:
   * the first `set` leaves the listener unsubscribed, and the second does
   * not call it.
   */
  method SelfUnsubscribe() returns (store: Store<string, int, nat>, ghost t1: seq<Event<string, int, nat>>,
                                    ghost cancelledAt: nat, final: map<string, int>)
    ensures !store.running && final == map["x" := 1]
    ensures t1 <= store.trace && cancelledAt < |t1| && store.trace[cancelledAt] == Cancel(0)
    ensures forall k :: |t1| <= k < |store.trace| && store.trace[k].Notify? ==> store.trace[k].handle != 0
  {
    store := LeaveFirst();
    t1 := store.trace;
    cancelledAt := store.cancelled[0];
    SecondSet(store);
    NoCallFrom(t1, store.trace, cancelledAt, 0);
    final := store.Get();
  }

  /**
   * `set({x: 1})` on a store at `{x: 0}` whose listeners never set: the
   * pass ends with `{x: 1}`, and the log stays consistent.
   */
  method SecondSet(store: Store<string, int, nat>)
    requires store.Valid() && !store.running && store.Silent() && store.fuel == 1 && store.value == map["x" := 0]
    modifies store
    ensures store.Valid() && !store.running && store.value == map["x" := 1]
    ensures old(store.trace) <= store.trace && NoNotifyAfterCancel(store.trace)
  {
    SecondValue();
    SilentSet(store, map["x" := 1]);
    store.SilentAfterUnsubscribe();
  }

  /** `createStore(() => ({}))` with `Leave` listeners, subscribe listener 0, then `set({x: 0})`. */
  method LeaveFirst() returns (store: Store<string, int, nat>)
    ensures store.Valid() && !store.running && store.Silent() && store.fuel == 1
    ensures store.value == map["x" := 0] && 0 in store.cancelled && store.cancelled[0] < |store.trace|
    ensures store.trace[store.cancelled[0]] == Cancel(0) && fresh(store)
  {
    store := LeaveStore();
    LeaveSet(store);
  }

  /** `set({x: 0})` on the `Leave` store: the pass ends, and listener 0 has unsubscribed itself. */
  method LeaveSet(store: Store<string, int, nat>)
    requires store.Valid() && !store.running && store.Silent() && store.behaviour == Leave && store.fuel == 1
    requires store.value == map[] && store.trace == [] && store.cancelled == map[]
    requires store.nextHandle == 1 && store.listeners == [0]
    modifies store
    ensures store.Valid() && !store.running && store.value == map["x" := 0] && 0 in store.cancelled
  {
    FirstValue();
    SilentSet(store, map["x" := 0]);
    LeaveGone(store.Now(), store.trace, store.cancelled.Keys, |old(store.trace)| + 1, old(store.nextHandle),
              old(store.cancelled).Keys, store.behaviour);
  }

  /** `createStore(() => ({}))` with `Leave` listeners, then subscribe listener 0. */
  method LeaveStore() returns (store: Store<string, int, nat>)
    ensures store.Valid() && !store.running && store.Silent() && store.behaviour == Leave && store.fuel == 1
    ensures store.value == map[] && store.trace == [] && store.cancelled == map[]
    ensures store.nextHandle == 1 && store.listeners == [0] && fresh(store)
  {
    store := new Store(map[], Leave, 1);
    var h := store.Subscribe(0);
  }

  /** Listener 0 calls the unsubscribe function of slot 1; every other listener does nothing. */
  function Prune(l: nat, v: map<string, int>): (r: seq<Command<string, int, nat>>)
    ensures Quiet(r) && Unsubscribes(r) == if l == 0 then {1} else {}
  {
    if l == 0 then
      var r: seq<Command<string, int, nat>> := [CallUnsubscribe(1)];
      assert r[1..] == [];
      r
    else
      []
  }

  /** The listeners of `Prune`, however often called, unsubscribe slot 1 and no other. */
  lemma {:induction false} PruneSpares(t: seq<Event<string, int, nat>>, from: nat)
    ensures UnsubscribedSince(t, from, Prune) <= {1}
    decreases |t|
  {
    if |t| > from {
      PruneSpares(t[..|t| - 1], from);
      if t[|t| - 1].Notify? {
        CancelsWithin(ScriptOf(t[|t| - 1], Prune), t[|t| - 1].issued);
      }
    }
  }

  /**
   * From log position 1 on, listener 0 of slot 0 was called with the
   * store's value, slot 1 was unsubscribed, and no listener of slot 1 was
   * called.
   */
  ghost predicate Pruned(s: Snapshot<string, int, nat>)
  {
    && 1 in s.cancelled && Notified(s.trace, 1, 0, 0, s.value)
    && forall k :: 1 <= k < |s.trace| && s.trace[k].Notify? ==> s.trace[k].handle != 1
  }

  /**
   * After a one-round pass of a `Prune` store with listener 0 at slot 0 and
   * listener 1 at slot 1: slot 0 was called, its call unsubscribed slot 1,
   * and slot 1, whose turn came after, was never called. `trace`, `value`
   * and `cancelled` are those of `s`, and `t0`, `h0` and `c0` where the pass
   * started.
   */
  lemma PruneSkips(s: Snapshot<string, int, nat>, trace: seq<Event<string, int, nat>>, value: map<string, int>,
                    cancelled: set<nat>, t0: nat, h0: nat, c0: set<nat>,
                    behaviour: (nat, map<string, int>) -> seq<Command<string, int, nat>>)
    requires trace == s.trace && value == s.value && cancelled == s.cancelled.Keys
    requires t0 == 1 && h0 == 2 && c0 == {} && behaviour == Prune && [0, 1] <= s.listeners
    requires StableIn(s, t0, h0, behaviour) && Calls(trace, t0, value, h0)
    requires UnsubscribesKept(trace, t0, c0, cancelled, h0, behaviour)
    ensures 0 !in s.cancelled && Pruned(s)
  {
    var t := s.trace;
    PruneSpares(t, 1);
    assert s.listeners[0] == 0;
    var k0 :| 1 <= k0 < |t| && CallOf(t[k0], 0, 0, s.value);
    UnsubscribedSinceHas(t, 1, Prune, k0);
    CancelsWithin(Prune(0, s.value), t[k0].issued);
    assert 1 in Issued(Unsubscribes(Prune(0, s.value)), t[k0].issued);
    PromptMeans(t, 1, Prune);
    forall k | 1 <= k < |t| && t[k].Notify?
      ensures t[k].handle != 1
    {
      CallsInOrder(t, 1, s.value, 2, k0, k);
    }
  }

  /**
   * `createStore(() => ({}))`, subscribe listener 0, which calls the
   * unsubscribe function of slot 1 when notified, and listener 1, then
   * `set({x: 0})`: listener 0 is called, slot 1 is unsubscribed before its
   * turn comes, and listener 1 is not called at all.
   */
  method UnsubscribeAhead() returns (store: Store<string, int, nat>, final: map<string, int>)
    ensures !store.running && final == map["x" := 0]
    ensures |store.trace| > 0 && store.trace[0] == Submit(map["x" := 0])
    ensures 1 in store.cancelled && Notified(store.trace, 1, 0, 0, final)
    ensures forall k :: 1 <= k < |store.trace| && store.trace[k].Notify? ==> store.trace[k].handle != 1
  {
    store := PruneStore();
    final := PruneSet(store);
  }

  /** `set({x: 0})` on the `Prune` store, then `get`. */
  method PruneSet(store: Store<string, int, nat>) returns (final: map<string, int>)
    requires store.Valid() && !store.running && store.Silent() && store.behaviour == Prune && store.fuel == 1
    requires store.value == map[] && store.trace == [] && store.cancelled == map[]
    requires store.nextHandle == 2 && store.listeners == [0, 1]
    modifies store
    ensures !store.running && final == map["x" := 0] == store.value
    ensures |store.trace| > 0 && store.trace[0] == Submit(map["x" := 0])
    ensures Pruned(store.Now())
  {
    FirstValue();
    SilentSet(store, map["x" := 0]);
    PruneSkips(store.Now(), store.trace, store.value, store.cancelled.Keys, |old(store.trace)| + 1, old(store.nextHandle),
               old(store.cancelled).Keys, store.behaviour);
    final := store.Get();
  }

  /** `createStore(() => ({}))` with `Prune` listeners, then subscribe listeners 0 and 1. */
  method PruneStore() returns (store: Store<string, int, nat>)
    ensures store.Valid() && !store.running && store.Silent() && store.behaviour == Prune && store.fuel == 1
    ensures store.value == map[] && store.trace == [] && store.cancelled == map[]
    ensures store.nextHandle == 2 && store.listeners == [0, 1] && fresh(store)
  {
    store := new Store(map[], Prune, 1);
    var h0 := store.Subscribe(0);
    var h1 := store.Subscribe(1);
  }

  /**
   * Listener 0 subscribes listener 1 and at once calls the unsubscribe
   * function of the new slot, which is slot 1 the first time; listener 1
   * does nothing.
   */
  function Spawn(l: nat, v: map<string, int>): (r: seq<Command<string, int, nat>>)
    ensures Quiet(r) && Unsubscribes(r) == if l == 0 then {1} else {}
  {
    if l == 0 then
      var r: seq<Command<string, int, nat>> := [CallSubscribe(1), CallUnsubscribe(1)];
      assert r[1..][1..] == [];
      r
    else
      []
  }

  /** Called once slot 0 was handed out, listener 0 of `Spawn` unsubscribes slot 1, which it handed out itself. */
  lemma SpawnCancels(v: map<string, int>, n: nat)
    requires 1 <= n
    ensures Cancels(Spawn(0, v), n) == {1}
  {
    var r := Spawn(0, v);
    assert r[1..] == [CallUnsubscribe(1)] && r[1..][1..] == [];
  }

  /** The listeners of `Spawn`, however often called, unsubscribe slot 1 and no other. */
  lemma {:induction false} SpawnSpares(t: seq<Event<string, int, nat>>, from: nat)
    ensures UnsubscribedSince(t, from, Spawn) <= {1}
    decreases |t|
  {
    if |t| > from {
      SpawnSpares(t[..|t| - 1], from);
      if t[|t| - 1].Notify? {
        CancelsWithin(ScriptOf(t[|t| - 1], Spawn), t[|t| - 1].issued);
      }
    }
  }

  /**
   * After a one-round pass of a `Spawn` store with listener 0 at slot 0,
   * started with only slot 0 handed out: slot 1, which listener 0
   * subscribed during the pass and unsubscribed in the same call, is
   * recorded as unsubscribed. `trace` and `cancelled` are those of `s`,
   * and `t0`, `h0` and `c0` where the pass started.
   */
  lemma SpawnGone(s: Snapshot<string, int, nat>, trace: seq<Event<string, int, nat>>, cancelled: set<nat>,
                  t0: nat, h0: nat, c0: set<nat>, behaviour: (nat, map<string, int>) -> seq<Command<string, int, nat>>)
    requires trace == s.trace && cancelled == s.cancelled.Keys && t0 == 1 && h0 == 1 && c0 == {} && behaviour == Spawn
    requires StableIn(s, t0, h0, behaviour) && UnsubscribesKept(trace, t0, c0, cancelled, h0, behaviour)
    requires [0] <= s.listeners
    ensures 1 in s.cancelled
  {
    SpawnSpares(s.trace, 1);
    assert s.listeners[0] == 0;
    var k :| 1 <= k < |s.trace| && CallOf(s.trace[k], 0, 0, s.value);
    UnsubscribedSinceHas(s.trace, 1, Spawn, k);
    SpawnCancels(s.value, s.trace[k].issued);
  }

  /**
   * `createStore(() => ({}))`, subscribe listener 0, which subscribes a
   * listener and unsubscribes it again whenever it is notified, then
   * `set({x: 0})` and `set({x: 1})`: slot 1, handed out during the first
   * pass, is unsubscribed by it, and the second pass does not call it.
   */
  method ShortLived() returns (store: Store<string, int, nat>, ghost t1: seq<Event<string, int, nat>>,
                               ghost cancelledAt: nat, final: map<string, int>)
    ensures !store.running && final == map["x" := 1]
    ensures t1 <= store.trace && cancelledAt < |t1| && store.trace[cancelledAt] == Cancel(1)
    ensures forall k :: |t1| <= k < |store.trace| && store.trace[k].Notify? ==> store.trace[k].handle != 1
  {
    store := SpawnStore();
    SpawnSet(store);
    t1 := store.trace;
    cancelledAt := store.cancelled[1];
    SecondSet(store);
    NoCallFrom(t1, store.trace, cancelledAt, 1);
    final := store.Get();
  }

  /** `set({x: 0})` on the `Spawn` store: the pass ends, and slot 1, handed out during it, is unsubscribed. */
  method SpawnSet(store: Store<string, int, nat>)
    requires store.Valid() && !store.running && store.Silent() && store.behaviour == Spawn && store.fuel == 1
    requires store.value == map[] && store.trace == [] && store.cancelled == map[]
    requires store.nextHandle == 1 && store.listeners == [0]
    modifies store
    ensures store.Valid() && !store.running && store.Silent() && store.fuel == 1 && store.value == map["x" := 0]
    ensures 1 in store.cancelled && store.cancelled[1] < |store.trace| && store.trace[store.cancelled[1]] == Cancel(1)
  {
    FirstValue();
    SilentSet(store, map["x" := 0]);
    SpawnGone(store.Now(), store.trace, store.cancelled.Keys, |old(store.trace)| + 1, old(store.nextHandle),
              old(store.cancelled).Keys, store.behaviour);
  }

  /** `createStore(() => ({}))` with `Spawn` listeners, then subscribe listener 0. */
  method SpawnStore() returns (store: Store<string, int, nat>)
    ensures store.Valid() && !store.running && store.Silent() && store.behaviour == Spawn && store.fuel == 1
    ensures store.value == map[] && store.trace == [] && store.cancelled == map[]
    ensures store.nextHandle == 1 && store.listeners == [0] && fresh(store)
  {
    store := new Store(map[], Spawn, 1);
    var h := store.Subscribe(0);
  }
}
