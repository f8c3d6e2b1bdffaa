/**
 * Listeners as the store sees them, and the progress of a notification
 * sweep, stated over plain values so that each step of a sweep can be
 * proved on its own.
 */
module Notification {
  import opened Wrappers
  import opened Patch
  import opened Slots
  import opened Trace

  /** A call a listener makes into the store while it is being notified. */
  datatype Command<K, V, L> =
    | CallSet(patch: map<K, V>)
    | CallSubscribe(listener: L)
    | CallUnsubscribe(handle: nat)  // the unsubscribe function returned for slot `handle`

  /** A listener script that sets nothing: every `set` it calls has an empty patch. */
  ghost predicate Quiet<K, V, L>(script: seq<Command<K, V, L>>)
  {
    forall j :: 0 <= j < |script| && script[j].CallSet? ==> |script[j].patch| == 0
  }

  /** A listener script that calls no unsubscribe function. */
  ghost predicate NoUnsubscribe<K, V, L>(script: seq<Command<K, V, L>>)
  {
    forall j :: 0 <= j < |script| ==> !script[j].CallUnsubscribe?
  }

  /** A script is its first call followed by the rest. */
  lemma ScriptHead<K, V, L>(script: seq<Command<K, V, L>>)
    requires |script| > 0
    ensures Quiet(script) <==> !(script[0].CallSet? && |script[0].patch| > 0) && Quiet(script[1..])
    ensures NoUnsubscribe(script) <==> !script[0].CallUnsubscribe? && NoUnsubscribe(script[1..])
  {
    assert script == [script[0]] + script[1..];
  }

  /** The patches a script's `set` calls hand to the store and the store accepts (those with a key), in order. */
  function SetPatches<K, V, L>(script: seq<Command<K, V, L>>): (r: seq<map<K, V>>)
    ensures |r| <= |script|
    ensures r == [] <==> Quiet(script)
    decreases |script|
  {
    if script == [] then []
    else
      ScriptHead(script);
      (if script[0].CallSet? && |script[0].patch| > 0 then [script[0].patch] else []) + SetPatches(script[1..])
  }

  /** The listeners a script subscribes, in order. */
  function Subscribes<K, V, L>(script: seq<Command<K, V, L>>): (r: seq<L>)
    ensures |r| <= |script|
    ensures forall i :: 0 <= i < |r| ==> CallSubscribe(r[i]) in script
    ensures forall j :: 0 <= j < |script| && script[j].CallSubscribe? ==> script[j].listener in r
    decreases |script|
  {
    if script == [] then []
    else
      assert script == [script[0]] + script[1..];
      (if script[0].CallSubscribe? then [script[0].listener] else []) + Subscribes(script[1..])
  }

  /** The handles whose unsubscribe functions a script calls. */
  function Unsubscribes<K, V, L>(script: seq<Command<K, V, L>>): (r: set<nat>)
    ensures r == {} <==> NoUnsubscribe(script)
    ensures forall h :: h in r <==> CallUnsubscribe(h) in script
    decreases |script|
  {
    if script == [] then {}
    else
      ScriptHead(script);
      assert script == [script[0]] + script[1..];
      (if script[0].CallUnsubscribe? then {script[0].handle} else {}) + Unsubscribes(script[1..])
  }

  /**
   * The handles whose unsubscribe functions a script calls while they are
   * handed out, when the handles below `next` are handed out as it starts:
   * each `subscribe` it calls hands out the next one, so a slot the script
   * subscribed itself counts too.
   */
  ghost function Cancels<K, V, L>(script: seq<Command<K, V, L>>, next: nat): set<nat>
    decreases |script|
  {
    if script == [] then {}
    else
      (if script[0].CallUnsubscribe? && script[0].handle < next then {script[0].handle} else {})
      + Cancels(script[1..], if script[0].CallSubscribe? then next + 1 else next)
  }

  /**
   * A script unsubscribes, while handed out, only handles whose unsubscribe
   * functions it calls, every such handle handed out before it started, and
   * only handles handed out before it started or by its own `subscribe` calls.
   */
  lemma {:induction false} CancelsWithin<K, V, L>(script: seq<Command<K, V, L>>, next: nat)
    ensures Cancels(script, next) <= Unsubscribes(script)
    ensures Issued(Unsubscribes(script), next) <= Cancels(script, next)
    ensures forall h :: h in Cancels(script, next) ==> h < next + |Subscribes(script)|
    decreases |script|
  {
    if script != [] {
      CancelsWithin(script[1..], if script[0].CallSubscribe? then next + 1 else next);
    }
  }

  /**
   * A handle is in `Cancels` exactly when the script calls its unsubscribe
   * function at a point where the handle was handed out: before the script,
   * or by one of the script's own earlier `subscribe` calls.
   */
  lemma CancelsMeans<K, V, L>(script: seq<Command<K, V, L>>, next: nat, h: nat)
    ensures h in Cancels(script, next) <==>
              exists j :: 0 <= j < |script| && script[j] == CallUnsubscribe(h) && h < next + |Subscribes(script[..j])|
  {
    if h in Cancels(script, next) {
      CancelsHas(script, next, h);
    }
    if j :| 0 <= j < |script| && script[j] == CallUnsubscribe(h) && h < next + |Subscribes(script[..j])| {
      CancelsFrom(script, next, h, j);
    }
  }

  /** A handle in `Cancels` has an unsubscribe call at a point where it was handed out. */
  lemma {:induction false} CancelsHas<K, V, L>(script: seq<Command<K, V, L>>, next: nat, h: nat)
    requires h in Cancels(script, next)
    ensures exists j :: 0 <= j < |script| && script[j] == CallUnsubscribe(h) && h < next + |Subscribes(script[..j])|
    decreases |script|
  {
    if script[0] == CallUnsubscribe(h) && h < next {
      assert script[..0] == [];
    } else {
      var n1 := if script[0].CallSubscribe? then next + 1 else next;
      CancelsHas(script[1..], n1, h);
      var j :| 0 <= j < |script[1..]| && script[1..][j] == CallUnsubscribe(h) && h < n1 + |Subscribes(script[1..][..j])|;
      SubscribesPrefix(script, j + 1);
      assert script[j + 1] == CallUnsubscribe(h);
    }
  }

  /** An unsubscribe call at position `j`, made while its handle was handed out, puts the handle in `Cancels`. */
  lemma {:induction false} CancelsFrom<K, V, L>(script: seq<Command<K, V, L>>, next: nat, h: nat, j: nat)
    requires j < |script| && script[j] == CallUnsubscribe(h) && h < next + |Subscribes(script[..j])|
    ensures h in Cancels(script, next)
    decreases j
  {
    if j == 0 {
      assert script[..0] == [];
    } else {
      var n1 := if script[0].CallSubscribe? then next + 1 else next;
      SubscribesPrefix(script, j);
      assert script[1..][j - 1] == CallUnsubscribe(h);
      CancelsFrom(script[1..], n1, h, j - 1);
    }
  }

  /** The listeners the first `j` calls of a script subscribe: those of its first call, then those of the next `j - 1`. */
  lemma SubscribesPrefix<K, V, L>(script: seq<Command<K, V, L>>, j: nat)
    requires 0 < j <= |script|
    ensures |Subscribes(script[..j])| == (if script[0].CallSubscribe? then 1 else 0) + |Subscribes(script[1..][..j - 1])|
  {
    assert script[..j][1..] == script[1..][..j - 1];
  }

  /** What a script does, split into its first call and the rest. */
  lemma ScriptSplit<K, V, L>(script: seq<Command<K, V, L>>)
    requires |script| > 0
    ensures SetPatches(script) == SetPatches([script[0]]) + SetPatches(script[1..])
    ensures Subscribes(script) == Subscribes([script[0]]) + Subscribes(script[1..])
    ensures Unsubscribes(script) == Unsubscribes([script[0]]) + Unsubscribes(script[1..])
  {
    var head := [script[0]];
    assert head[1..] == [];
    SplitPatches(script, head);
    SplitSubscribes(script, head);
    SplitUnsubscribes(script, head);
  }

  lemma SplitPatches<K, V, L>(script: seq<Command<K, V, L>>, head: seq<Command<K, V, L>>)
    requires |script| > 0 && head == [script[0]] && head[1..] == []
    ensures SetPatches(script) == SetPatches(head) + SetPatches(script[1..])
  {
  }

  lemma SplitSubscribes<K, V, L>(script: seq<Command<K, V, L>>, head: seq<Command<K, V, L>>)
    requires |script| > 0 && head == [script[0]] && head[1..] == []
    ensures Subscribes(script) == Subscribes(head) + Subscribes(script[1..])
  {
  }

  lemma SplitUnsubscribes<K, V, L>(script: seq<Command<K, V, L>>, head: seq<Command<K, V, L>>)
    requires |script| > 0 && head == [script[0]] && head[1..] == []
    ensures Unsubscribes(script) == Unsubscribes(head) + Unsubscribes(script[1..])
  {
  }

  /** The handles a script unsubscribes while handed out: those of its first call, then those of the rest. */
  lemma SplitCancels<K, V, L>(script: seq<Command<K, V, L>>, next: nat, after: nat)
    requires |script| > 0 && after == next + |Subscribes([script[0]])|
    ensures Cancels(script, next) == Cancels([script[0]], next) + Cancels(script[1..], after)
  {
    ScriptOne(script[0], next);
  }

  /** What a script of one call does. */
  lemma ScriptOne<K, V, L>(cmd: Command<K, V, L>, next: nat)
    ensures SetPatches([cmd]) == if cmd.CallSet? && |cmd.patch| > 0 then [cmd.patch] else []
    ensures Subscribes([cmd]) == if cmd.CallSubscribe? then [cmd.listener] else []
    ensures Unsubscribes([cmd]) == if cmd.CallUnsubscribe? then {cmd.handle} else {}
    ensures Cancels([cmd], next) == if cmd.CallUnsubscribe? && cmd.handle < next then {cmd.handle} else {}
  {
    assert [cmd][1..] == [];
  }

  /** The handles of `hs` that had been handed out while the next handle was `bound`. */
  ghost function Issued(hs: set<nat>, bound: nat): (r: set<nat>)
    ensures forall h :: h in r <==> h in hs && h < bound
  {
    set h | h in hs && h < bound
  }

  /** The store's invariant, over its fields. */
  ghost predicate StoreInvariant<K, V, L>(slots: seq<Slot<L>>, listeners: seq<L>, hasEmpty: bool, cancelled: map<nat, nat>,
                                          trace: seq<Event<K, V, L>>, nextHandle: nat, running: bool, keepGoing: bool,
                                          value: map<K, V>, nextValue: Option<map<K, V>>, settled: map<K, V>)
  {
    && SlotsInvariant(slots, listeners, hasEmpty, cancelled.Keys)
    && nextHandle == |listeners|
    && CancelLog(trace, cancelled, nextHandle)
    && (!running ==> nextValue.None? && keepGoing)
    // every accepted patch is in the value or in the pending patch, later patches winning
    && Settled(value, nextValue) == settled
  }

  /** The part of a store's state that the progress of a sweep is measured by. */
  datatype Snapshot<K, V, L> = Snapshot(
    slots: seq<Slot<L>>, nextHandle: nat, trace: seq<Event<K, V, L>>, value: map<K, V>,
    settled: map<K, V>, cancelled: map<nat, nat>, listeners: seq<L>)

  /**
   * `s` came from `s0` through calls listeners made during a sweep: the
   * value stayed, no slot of `s0` moved, changed its listener or lost it
   * without an unsubscribe call, new slots have new handles, the log only
   * grew, and what the store settles on is what it settled on in `s0` with
   * every patch accepted in between applied, in order.
   */
  ghost predicate Extends<K, V, L>(s0: Snapshot<K, V, L>, s: Snapshot<K, V, L>)
  {
    && s.value == s0.value
    && Grown(s0.slots, s.slots, s0.nextHandle, s.cancelled.Keys) && s.nextHandle >= s0.nextHandle
    && s0.listeners <= s.listeners && s0.cancelled.Keys <= s.cancelled.Keys
    && s0.trace <= s.trace
    && s.settled == AppliedSince(s0.settled, s.trace, |s0.trace|)
  }

  lemma ExtendsTransitive<K, V, L>(a: Snapshot<K, V, L>, b: Snapshot<K, V, L>, c: Snapshot<K, V, L>)
    requires Extends(a, b) && Extends(b, c)
    ensures Extends(a, c)
  {
    GrownTransitive(a.slots, b.slots, c.slots, a.nextHandle, b.nextHandle, b.cancelled.Keys, c.cancelled.Keys);
    AppliedSinceSplit(a.settled, b.trace, c.trace, |a.trace|);
  }
  /**
   * The effect of calls a listener makes during a sweep, from `s0` with
   * `keepGoing` at `k0` to `s` with it at `k`: the store only extended, no
   * listener was called, the sweep may still go on exactly when it could
   * before and no patch was accepted, the patches accepted are `patches`,
   * in order, the listeners subscribed are `subs`, in order, and the
   * handles newly unsubscribed are those of `unsubs`.
   */
  ghost predicate CallEffect<K, V, L>(s0: Snapshot<K, V, L>, k0: bool, s: Snapshot<K, V, L>, k: bool,
                                      patches: seq<map<K, V>>, subs: seq<L>, unsubs: set<nat>)
  {
    && Extends(s0, s)
    && NoNotify(s.trace, |s0.trace|)
    && (k <==> k0 && NoSubmit(s.trace, |s0.trace|))
    && Accounted(s0, s, patches, subs, unsubs)
  }

  /**
   * From `s0` to `s` the patches accepted are `patches`, in order, the
   * listeners subscribed are `subs`, in order, and the handles unsubscribed
   * are those unsubscribed before and those of `unsubs`.
   */
  ghost predicate Accounted<K, V, L>(s0: Snapshot<K, V, L>, s: Snapshot<K, V, L>,
                                     patches: seq<map<K, V>>, subs: seq<L>, unsubs: set<nat>)
  {
    && |s0.trace| <= |s.trace|
    && Submits(s.trace[|s0.trace|..]) == patches
    && s.listeners == s0.listeners + subs && s.nextHandle == s0.nextHandle + |subs|
    && s.cancelled.Keys == s0.cancelled.Keys + unsubs
  }

  /** Accounts of two stretches in a row add up. */
  lemma AccountedTransitive<K, V, L>(s0: Snapshot<K, V, L>, s1: Snapshot<K, V, L>, p1: seq<map<K, V>>, b1: seq<L>, u1: set<nat>,
                                     s2: Snapshot<K, V, L>, p2: seq<map<K, V>>, b2: seq<L>, u2: set<nat>)
    requires Accounted(s0, s1, p1, b1, u1) && Accounted(s1, s2, p2, b2, u2) && s0.trace <= s1.trace <= s2.trace
    ensures Accounted(s0, s2, p1 + p2, b1 + b2, u1 + u2)
  {
    SubmitsSince(s0.trace, s1.trace, s2.trace);
    assert s2.listeners == s0.listeners + (b1 + b2);
  }

  /** The patches accepted over two stretches of the log in a row add up. */
  lemma SubmitsSince<K, V, L>(t0: seq<Event<K, V, L>>, t1: seq<Event<K, V, L>>, t2: seq<Event<K, V, L>>)
    requires t0 <= t1 <= t2
    ensures Submits(t2[|t0|..]) == Submits(t1[|t0|..]) + Submits(t2[|t1|..])
  {
    assert t2[|t0|..] == t1[|t0|..] + t2[|t1|..];
    SubmitsConcat(t1[|t0|..], t2[|t1|..]);
  }

  /** No call at all has no effect. */
  lemma CallEffectNone<K, V, L>(s: Snapshot<K, V, L>, k: bool)
    ensures CallEffect(s, k, s, k, [], [], {})
  {
    AppliedSinceNoSubmit(s.settled, s.trace, |s.trace|);
    assert s.trace[|s.trace|..] == [] && s.listeners + [] == s.listeners;
  }

  /** An accepted `set` of `p` only logs and settles `p`, and stops the sweep. */
  lemma CallEffectSubmit<K, V, L>(s0: Snapshot<K, V, L>, k0: bool, p: map<K, V>, s: Snapshot<K, V, L>)
    requires s == s0.(trace := s0.trace + [Submit(p)], settled := Apply(s0.settled, p))
    ensures CallEffect(s0, k0, s, false, [p], [], {})
  {
    AppliedSinceSubmit(s0.settled, s0.trace, p);
    assert s.trace[|s0.trace|].Submit?;
    var u := s.trace[|s0.trace|..];
    assert u == [Submit(p)] && u[..0] == [];
    assert Submits(u) == [p];
    assert s0.listeners + [] == s0.listeners;
  }

  /** A `subscribe` while a pass runs only appends a slot with the next handle. */
  lemma CallEffectAppend<K, V, L>(s0: Snapshot<K, V, L>, k0: bool, l: L, s: Snapshot<K, V, L>)
    requires s == s0.(slots := s0.slots + [Slot(s0.nextHandle, Some(l))], listeners := s0.listeners + [l],
                      nextHandle := s0.nextHandle + 1)
    ensures CallEffect(s0, k0, s, k0, [], [l], {})
  {
    GrownAppend(s0.slots, Slot(s0.nextHandle, Some(l)), s0.nextHandle, s.cancelled.Keys);
    AppliedSinceNoSubmit(s0.settled, s0.trace, |s0.trace|);
    assert s.trace[|s0.trace|..] == [];
  }

  /** An unsubscribe of a handed-out handle only tombstones the slot, and logs and records the call. */
  lemma CallEffectCancel<K, V, L>(s0: Snapshot<K, V, L>, k0: bool, h: nat, s: Snapshot<K, V, L>)
    requires h < s0.nextHandle && s.cancelled.Keys == s0.cancelled.Keys + {h}
    requires s == s0.(slots := Tombstone(s0.slots, h), trace := s0.trace + [Cancel(h)], cancelled := s.cancelled)
    ensures CallEffect(s0, k0, s, k0, [], [], {h})
  {
    GrownTombstone(s0.slots, h, s0.nextHandle, s.cancelled.Keys);
    AppliedSinceNoSubmit(s0.settled, s.trace, |s0.trace|);
    var u := s.trace[|s0.trace|..];
    assert u == [Cancel(h)] && u[..0] == [];
    assert s0.listeners + [] == s0.listeners;
  }

  /** Listener calls in a row have the combined effect: patches, subscriptions and unsubscriptions add up. */
  lemma CallEffectTransitive<K, V, L>(s0: Snapshot<K, V, L>, k0: bool, s1: Snapshot<K, V, L>, k1: bool,
                                      p1: seq<map<K, V>>, b1: seq<L>, u1: set<nat>,
                                      s2: Snapshot<K, V, L>, k2: bool, p2: seq<map<K, V>>, b2: seq<L>, u2: set<nat>)
    requires CallEffect(s0, k0, s1, k1, p1, b1, u1) && CallEffect(s1, k1, s2, k2, p2, b2, u2)
    ensures CallEffect(s0, k0, s2, k2, p1 + p2, b1 + b2, u1 + u2)
  {
    ExtendsTransitive(s0, s1, s2);
    NoSubmitSplit(s1.trace, s2.trace, |s0.trace|);
    forall k | |s0.trace| <= k < |s2.trace|
      ensures !s2.trace[k].Notify?
    {
      if k < |s1.trace| {
        assert s2.trace[k] == s1.trace[k];
      }
    }
    AccountedTransitive(s0, s1, p1, b1, u1, s2, p2, b2, u2);
  }

  /** The effect of a script's first call, then of the rest, is the effect of the script. */
  lemma CallEffectScript<K, V, L>(script: seq<Command<K, V, L>>, s0: Snapshot<K, V, L>, k0: bool,
                                  s1: Snapshot<K, V, L>, k1: bool, s2: Snapshot<K, V, L>, k2: bool)
    requires |script| > 0
    requires CallEffect(s0, k0, s1, k1, SetPatches([script[0]]), Subscribes([script[0]]), Cancels([script[0]], s0.nextHandle))
    requires CallEffect(s1, k1, s2, k2, SetPatches(script[1..]), Subscribes(script[1..]), Cancels(script[1..], s1.nextHandle))
    ensures CallEffect(s0, k0, s2, k2, SetPatches(script), Subscribes(script), Cancels(script, s0.nextHandle))
  {
    var p1, b1, u1 := SetPatches([script[0]]), Subscribes([script[0]]), Cancels([script[0]], s0.nextHandle);
    var p2, b2, u2 := SetPatches(script[1..]), Subscribes(script[1..]), Cancels(script[1..], s1.nextHandle);
    CallEffectTransitive(s0, k0, s1, k1, p1, b1, u1, s2, k2, p2, b2, u2);
    ScriptSplit(script);
    assert s1.nextHandle == s0.nextHandle + |b1|;
    SplitCancels(script, s0.nextHandle, s1.nextHandle);
  }

  /**
   * A round whose sweep a listener's `set` stopped: some listener, called
   * with the round's value `v`, set something, and `w`, the value the next
   * round applies, is `v` with that listener's patches applied in order.
   */
  ghost predicate Stops<K(!new), V(!new), L(!new)>(v: map<K, V>, w: map<K, V>, behaviour: (L, map<K, V>) -> seq<Command<K, V, L>>)
  {
    exists l :: !Quiet(behaviour(l, v)) && w == ApplyAll(v, SetPatches(behaviour(l, v)))
  }

  /** `w` is the value of a pass's round after `n` stopped rounds, when the first round's value was `v`. */
  ghost predicate AfterStops<K(!new), V(!new), L(!new)>(v: map<K, V>, n: nat, w: map<K, V>, behaviour: (L, map<K, V>) -> seq<Command<K, V, L>>)
    decreases n
  {
    if n == 0 then w == v else exists u :: AfterStops(v, n - 1, u, behaviour) && Stops(u, w, behaviour)
  }

  /** The script of the listener a call event records, with the value it was handed. */
  function ScriptOf<K, V, L>(e: Event<K, V, L>, behaviour: (L, map<K, V>) -> seq<Command<K, V, L>>): seq<Command<K, V, L>>
    requires e.Notify?
  {
    behaviour(e.listener, e.value)
  }

  /**
   * The handles that the listeners called from log position `from` on
   * unsubscribed while those handles were handed out (see `Cancels`).
   */
  ghost function UnsubscribedSince<K, V, L>(t: seq<Event<K, V, L>>, from: nat,
                                           behaviour: (L, map<K, V>) -> seq<Command<K, V, L>>): set<nat>
    decreases |t|
  {
    if |t| <= from then {}
    else
      UnsubscribedSince(t[..|t| - 1], from, behaviour)
      + (if t[|t| - 1].Notify? then Cancels(ScriptOf(t[|t| - 1], behaviour), t[|t| - 1].issued) else {})
  }

  /** The script of a listener called from `from` on contributes its unsubscribes to `UnsubscribedSince`. */
  lemma {:induction false} UnsubscribedSinceHas<K, V, L>(t: seq<Event<K, V, L>>, from: nat,
                                                         behaviour: (L, map<K, V>) -> seq<Command<K, V, L>>, k: nat)
    requires from <= k < |t| && t[k].Notify?
    ensures Cancels(ScriptOf(t[k], behaviour), t[k].issued) <= UnsubscribedSince(t, from, behaviour)
    decreases |t|
  {
    if k < |t| - 1 {
      var u := t[..|t| - 1];
      assert u[k] == t[k];
      UnsubscribedSinceHas(u, from, behaviour, k);
    }
  }

  /** Every handle in `UnsubscribedSince` is unsubscribed by the script of some listener called from `from` on. */
  lemma {:induction false} UnsubscribedSinceFrom<K, V, L>(t: seq<Event<K, V, L>>, from: nat,
                                                          behaviour: (L, map<K, V>) -> seq<Command<K, V, L>>, h: nat)
    requires h in UnsubscribedSince(t, from, behaviour)
    ensures exists k :: from <= k < |t| && t[k].Notify? && h in Cancels(ScriptOf(t[k], behaviour), t[k].issued)
    decreases |t|
  {
    var u := t[..|t| - 1];
    if h in UnsubscribedSince(u, from, behaviour) {
      UnsubscribedSinceFrom(u, from, behaviour, h);
      var k :| from <= k < |u| && u[k].Notify? && h in Cancels(ScriptOf(u[k], behaviour), u[k].issued);
      assert t[k] == u[k];
    } else {
      assert t[|t| - 1].Notify?;
    }
  }

  /** The handles unsubscribed since `from` in a longer log are those of a shorter one and those of the rest. */
  lemma {:induction false} UnsubscribedSinceSplit<K, V, L>(t1: seq<Event<K, V, L>>, t2: seq<Event<K, V, L>>, from: nat,
                                                           behaviour: (L, map<K, V>) -> seq<Command<K, V, L>>)
    requires from <= |t1| && t1 <= t2
    ensures UnsubscribedSince(t2, from, behaviour)
              == UnsubscribedSince(t1, from, behaviour) + UnsubscribedSince(t2, |t1|, behaviour)
    decreases |t2|
  {
    if |t2| == |t1| {
      assert t2 == t1;
    } else {
      var u := t2[..|t2| - 1];
      assert t1 <= u;
      UnsubscribedSinceSplit(t1, u, from, behaviour);
    }
  }

  /** A stretch of the log in which no listener is called unsubscribes nothing. */
  lemma {:induction false} UnsubscribedSinceNone<K, V, L>(t: seq<Event<K, V, L>>, from: nat,
                                                          behaviour: (L, map<K, V>) -> seq<Command<K, V, L>>)
    requires NoNotify(t, from)
    ensures UnsubscribedSince(t, from, behaviour) == {}
    decreases |t|
  {
    if |t| > from {
      UnsubscribedSinceNone(t[..|t| - 1], from, behaviour);
    }
  }

  /** A call of a listener followed by calls of none adds exactly what that listener unsubscribed. */
  lemma UnsubscribedSinceNotify<K, V, L>(t1: seq<Event<K, V, L>>, t2: seq<Event<K, V, L>>, from: nat,
                                         behaviour: (L, map<K, V>) -> seq<Command<K, V, L>>, h: nat, l: L, v: map<K, V>,
                                         n: nat)
    requires from <= |t1| && t1 + [Notify(h, l, v, n)] <= t2 && NoNotify(t2, |t1| + 1)
    ensures UnsubscribedSince(t2, from, behaviour) == UnsubscribedSince(t1, from, behaviour) + Cancels(behaviour(l, v), n)
  {
    var t := t1 + [Notify(h, l, v, n)];
    assert t[..|t| - 1] == t1;
    UnsubscribedSinceSplit(t, t2, from, behaviour);
    UnsubscribedSinceNone(t2, |t|, behaviour);
  }

  /**
   * Every listener called from log position `from` on had its calls of
   * unsubscribe functions of handles handed out at the time take effect,
   * including handles it subscribed itself: those handles are in
   * `cancelled` (see `HonouredMeans`).
   */
  ghost predicate Honoured<K, V, L>(t: seq<Event<K, V, L>>, from: nat, cancelled: set<nat>,
                                    behaviour: (L, map<K, V>) -> seq<Command<K, V, L>>)
  {
    UnsubscribedSince(t, from, behaviour) <= cancelled
  }

  /** `Honoured`, listener call by listener call. */
  lemma HonouredMeans<K, V, L>(t: seq<Event<K, V, L>>, from: nat, cancelled: set<nat>,
                               behaviour: (L, map<K, V>) -> seq<Command<K, V, L>>)
    ensures Honoured(t, from, cancelled, behaviour) <==>
              forall k :: from <= k < |t| && t[k].Notify? ==> Cancels(ScriptOf(t[k], behaviour), t[k].issued) <= cancelled
  {
    forall k | from <= k < |t| && t[k].Notify?
      ensures Cancels(ScriptOf(t[k], behaviour), t[k].issued) <= UnsubscribedSince(t, from, behaviour)
    {
      UnsubscribedSinceHas(t, from, behaviour, k);
    }
    forall h | h in UnsubscribedSince(t, from, behaviour)
      ensures exists k :: from <= k < |t| && t[k].Notify? && h in Cancels(ScriptOf(t[k], behaviour), t[k].issued)
    {
      UnsubscribedSinceFrom(t, from, behaviour, h);
    }
  }

  /** A listener call whose unsubscribe calls took effect keeps the log honoured. */
  lemma HonouredNotify<K, V, L>(t1: seq<Event<K, V, L>>, t2: seq<Event<K, V, L>>, from: nat, c1: set<nat>, c2: set<nat>,
                                behaviour: (L, map<K, V>) -> seq<Command<K, V, L>>, h: nat, l: L, v: map<K, V>, n: nat)
    requires Honoured(t1, from, c1, behaviour) && c1 <= c2 && from <= |t1|
    requires t1 + [Notify(h, l, v, n)] <= t2 && NoNotify(t2, |t1| + 1)
    requires Cancels(behaviour(l, v), n) <= c2
    ensures Honoured(t2, from, c2, behaviour)
  {
    UnsubscribedSinceNotify(t1, t2, from, behaviour, h, l, v, n);
  }

  /** Two honoured stretches of the log make one. */
  lemma HonouredJoin<K, V, L>(t1: seq<Event<K, V, L>>, t2: seq<Event<K, V, L>>, from: nat, c1: set<nat>, c2: set<nat>,
                              behaviour: (L, map<K, V>) -> seq<Command<K, V, L>>)
    requires Honoured(t1, from, c1, behaviour) && Honoured(t2, |t1|, c2, behaviour)
    requires t1 <= t2 && from <= |t1| && c1 <= c2
    ensures Honoured(t2, from, c2, behaviour)
  {
    UnsubscribedSinceSplit(t1, t2, from, behaviour);
  }

  /**
   * The converse of `Honoured`: every handle unsubscribed in `c` that was
   * not already in `c0` is one that a listener called from `from` on
   * unsubscribed.
   */
  ghost predicate Warranted<K, V, L>(t: seq<Event<K, V, L>>, from: nat, c0: set<nat>, c: set<nat>,
                                     behaviour: (L, map<K, V>) -> seq<Command<K, V, L>>)
  {
    c <= c0 + UnsubscribedSince(t, from, behaviour)
  }

  /** A listener call that unsubscribed nothing beyond what its script unsubscribes keeps the log warranted. */
  lemma WarrantedNotify<K, V, L>(t1: seq<Event<K, V, L>>, t2: seq<Event<K, V, L>>, from: nat, c0: set<nat>, c1: set<nat>,
                                 c2: set<nat>, behaviour: (L, map<K, V>) -> seq<Command<K, V, L>>, h: nat, l: L,
                                 v: map<K, V>, n: nat)
    requires Warranted(t1, from, c0, c1, behaviour) && from <= |t1|
    requires t1 + [Notify(h, l, v, n)] <= t2 && NoNotify(t2, |t1| + 1)
    requires c2 <= c1 + Cancels(behaviour(l, v), n)
    ensures Warranted(t2, from, c0, c2, behaviour)
  {
    UnsubscribedSinceNotify(t1, t2, from, behaviour, h, l, v, n);
  }

  /** Two warranted stretches of the log make one. */
  lemma WarrantedJoin<K, V, L>(t1: seq<Event<K, V, L>>, t2: seq<Event<K, V, L>>, from: nat, c0: set<nat>, c1: set<nat>,
                               c2: set<nat>, behaviour: (L, map<K, V>) -> seq<Command<K, V, L>>)
    requires Warranted(t1, from, c0, c1, behaviour) && Warranted(t2, |t1|, c1, c2, behaviour)
    requires t1 <= t2 && from <= |t1|
    ensures Warranted(t2, from, c0, c2, behaviour)
  {
    UnsubscribedSinceSplit(t1, t2, from, behaviour);
  }

  /**
   * No listener called from log position `from` on is called after a
   * listener, called from `from` on, that unsubscribed it while it was
   * handed out; see `PromptMeans`.
   */
  ghost predicate Prompt<K, V, L>(t: seq<Event<K, V, L>>, from: nat, behaviour: (L, map<K, V>) -> seq<Command<K, V, L>>)
  {
    forall b {:trigger t[..b]} :: from <= b < |t| && t[b].Notify? ==> t[b].handle !in UnsubscribedSince(t[..b], from, behaviour)
  }

  /** `Prompt`, for every pair of listener calls. */
  lemma PromptMeans<K, V, L>(t: seq<Event<K, V, L>>, from: nat, behaviour: (L, map<K, V>) -> seq<Command<K, V, L>>)
    ensures Prompt(t, from, behaviour) <==>
              forall a, b :: from <= a < b < |t| && t[a].Notify? && t[b].Notify? ==>
                t[b].handle !in Cancels(ScriptOf(t[a], behaviour), t[a].issued)
  {
    forall a, b | from <= a < b < |t| && t[a].Notify? && t[b].Notify?
      ensures Cancels(ScriptOf(t[a], behaviour), t[a].issued) <= UnsubscribedSince(t[..b], from, behaviour)
    {
      assert t[..b][a] == t[a];
      UnsubscribedSinceHas(t[..b], from, behaviour, a);
    }
    forall b, h | from <= b < |t| && h in UnsubscribedSince(t[..b], from, behaviour)
      ensures exists a :: from <= a < b && t[a].Notify? && h in Cancels(ScriptOf(t[a], behaviour), t[a].issued)
    {
      UnsubscribedSinceFrom(t[..b], from, behaviour, h);
      var a :| from <= a < b && t[..b][a].Notify? && h in Cancels(ScriptOf(t[..b][a], behaviour), t[..b][a].issued);
      assert t[a] == t[..b][a];
    }
  }

  /**
   * Calling a listener whose handle is not unsubscribed keeps the log
   * prompt: no listener called before it in an honoured log unsubscribed it.
   */
  lemma PromptNotify<K, V, L>(t1: seq<Event<K, V, L>>, t2: seq<Event<K, V, L>>, from: nat, c1: set<nat>,
                              behaviour: (L, map<K, V>) -> seq<Command<K, V, L>>, h: nat, l: L, v: map<K, V>, n: nat)
    requires Prompt(t1, from, behaviour) && Honoured(t1, from, c1, behaviour) && h !in c1
    requires t1 + [Notify(h, l, v, n)] <= t2 && NoNotify(t2, |t1| + 1)
    ensures Prompt(t2, from, behaviour)
  {
    forall b | from <= b < |t2| && t2[b].Notify?
      ensures t2[b].handle !in UnsubscribedSince(t2[..b], from, behaviour)
    {
      if b < |t1| {
        assert t2[..b] == t1[..b] && t2[b] == t1[b];
      } else {
        assert t2[..b] == t1;
      }
    }
  }

  /**
   * Two prompt stretches of the log make one: a listener that a call in the
   * first one unsubscribed is logged as unsubscribed before the second one
   * starts, and so is not called in it.
   */
  lemma PromptJoin<K, V, L>(t1: seq<Event<K, V, L>>, t2: seq<Event<K, V, L>>, from: nat, c1: map<nat, nat>, n1: nat,
                            c2: map<nat, nat>, n2: nat, behaviour: (L, map<K, V>) -> seq<Command<K, V, L>>)
    requires Prompt(t1, from, behaviour) && Prompt(t2, |t1|, behaviour)
    requires Honoured(t1, from, c1.Keys, behaviour) && from <= |t1|
    requires CancelLog(t1, c1, n1) && CancelLog(t2, c2, n2) && t1 <= t2
    ensures Prompt(t2, from, behaviour)
  {
    CancelLogKept(t1, c1, n1, t2, c2, n2);
    forall b | from <= b < |t2| && t2[b].Notify?
      ensures t2[b].handle !in UnsubscribedSince(t2[..b], from, behaviour)
    {
      if b < |t1| {
        assert t2[..b] == t1[..b] && t2[b] == t1[b];
      } else {
        UnsubscribedSinceSplit(t1, t2[..b], from, behaviour);
      }
    }
  }

  /** Every listener called from log position `from` on was called once the handles below `bound` were handed out. */
  ghost predicate IssuedBefore<K, V, L>(t: seq<Event<K, V, L>>, from: nat, bound: nat)
  {
    forall k :: from <= k < |t| && t[k].Notify? ==> bound <= t[k].issued
  }

  /** A call made once the handles below `bound` were handed out keeps the log so. */
  lemma IssuedBeforeNotify<K, V, L>(t1: seq<Event<K, V, L>>, t2: seq<Event<K, V, L>>, from: nat, bound: nat,
                                    h: nat, l: L, v: map<K, V>, n: nat)
    requires IssuedBefore(t1, from, bound) && bound <= n
    requires t1 + [Notify(h, l, v, n)] <= t2 && NoNotify(t2, |t1| + 1)
    ensures IssuedBefore(t2, from, bound)
  {
    forall k | from <= k < |t2| && t2[k].Notify?
      ensures bound <= t2[k].issued
    {
      if k < |t1| {
        assert t2[k] == t1[k];
      }
    }
  }

  /**
   * The unsubscribe calls of every listener called from log position `from`
   * on took effect, before the next listener was called, on every handle
   * handed out at the time, and no other handle joined `c0` in `c`; those
   * listeners were called once the handles below `bound` were handed out.
   */
  ghost predicate UnsubscribesKept<K, V, L>(t: seq<Event<K, V, L>>, from: nat, c0: set<nat>, c: set<nat>, bound: nat,
                                            behaviour: (L, map<K, V>) -> seq<Command<K, V, L>>)
  {
    && Honoured(t, from, c, behaviour) && Prompt(t, from, behaviour) && Warranted(t, from, c0, c, behaviour)
    && IssuedBefore(t, from, bound)
  }

  /** Two stretches of the log whose unsubscribe calls were kept make one, for the smaller bound. */
  lemma KeptJoin<K, V, L>(t1: seq<Event<K, V, L>>, t2: seq<Event<K, V, L>>, from: nat, c0: set<nat>,
                          c1: map<nat, nat>, n1: nat, c2: map<nat, nat>, n2: nat, b0: nat, b1: nat,
                          behaviour: (L, map<K, V>) -> seq<Command<K, V, L>>)
    requires UnsubscribesKept(t1, from, c0, c1.Keys, b0, behaviour)
    requires UnsubscribesKept(t2, |t1|, c1.Keys, c2.Keys, b1, behaviour)
    requires CancelLog(t1, c1, n1) && CancelLog(t2, c2, n2)
    requires t1 <= t2 && from <= |t1| && c1.Keys <= c2.Keys && b0 <= b1
    ensures UnsubscribesKept(t2, from, c0, c2.Keys, b0, behaviour)
  {
    HonouredJoin(t1, t2, from, c1.Keys, c2.Keys, behaviour);
    PromptJoin(t1, t2, from, c1, n1, c2, n2, behaviour);
    WarrantedJoin(t1, t2, from, c0, c1.Keys, c2.Keys, behaviour);
    forall k | from <= k < |t2| && t2[k].Notify?
      ensures b0 <= t2[k].issued
    {
      if k < |t1| {
        assert t2[k] == t1[k];
      }
    }
  }

  /** The first handle a sweep over `slots` has not reached when it is about to look at index `i`. */
  function Reach<L>(slots: seq<Slot<L>>, i: nat, nextHandle: nat): (r: nat)
    ensures i < |slots| ==> r == slots[i].handle
    ensures |slots| <= i ==> r == nextHandle
  {
    if i < |slots| then slots[i].handle else nextHandle
  }

  /**
   * The listener calls logged from position `from` on: all with `value`,
   * all of slots with handles below `bound`, in list order and each slot at
   * most once, and none after an accepted `set`.
   */
  ghost predicate Calls<K, V, L>(t: seq<Event<K, V, L>>, from: nat, value: map<K, V>, bound: nat)
  {
    && (forall k :: from <= k < |t| && t[k].Notify? ==> t[k].value == value && t[k].handle < bound)
    && (forall a, b :: from <= a < b < |t| && t[a].Notify? && t[b].Notify? ==> t[a].handle < t[b].handle)
    && (forall a, b :: from <= a < b < |t| && t[a].Submit? ==> !t[b].Notify?)
  }

  /**
   * Within calls of that shape, a slot with a smaller handle was called
   * before a slot with a larger one, and no slot was called twice.
   */
  lemma {:induction false} CallsInOrder<K, V, L>(t: seq<Event<K, V, L>>, from: nat, value: map<K, V>, bound: nat,
                                                 a: nat, b: nat)
    requires Calls(t, from, value, bound)
    requires from <= a < |t| && from <= b < |t| && t[a].Notify? && t[b].Notify?
    ensures t[a].handle < t[b].handle <==> a < b
    ensures t[a].handle == t[b].handle <==> a == b
  {
    if a < b {
      assert t[a].handle < t[b].handle;
    } else if b < a {
      assert t[b].handle < t[a].handle;
    }
  }

  /** Every slot below index `n` that is live in `slots` had its listener called with `value` from position `from` on. */
  ghost predicate Covered<K, V, L>(slots: seq<Slot<L>>, n: nat, t: seq<Event<K, V, L>>, from: nat, value: map<K, V>)
  {
    forall j :: 0 <= j < n && j < |slots| && Live(slots[j]) ==>
      Notified(t, from, slots[j].handle, slots[j].ref.value, value)
  }

  /** Every listener called from position `from` on sets nothing when handed the value it got. */
  ghost predicate AllQuiet<K, V, L>(t: seq<Event<K, V, L>>, from: nat, behaviour: (L, map<K, V>) -> seq<Command<K, V, L>>)
  {
    forall k :: from <= k < |t| && t[k].Notify? ==> Quiet(behaviour(t[k].listener, t[k].value))
  }

  /**
   * Every slot subscribed before handle `h0` whose unsubscribe function was
   * not called was called, from log position `t0` on, with the current
   * value, and its listener sets nothing when handed that value: the value
   * is stable.
   */
  ghost predicate StableIn<K, V, L>(s: Snapshot<K, V, L>, t0: nat, h0: nat, behaviour: (L, map<K, V>) -> seq<Command<K, V, L>>)
  {
    forall h :: 0 <= h < h0 && h !in s.cancelled ==>
      h < |s.listeners| && Notified(s.trace, t0, h, s.listeners[h], s.value) && Quiet(behaviour(s.listeners[h], s.value))
  }

  /** A value stable for the subscriptions before `h1` since position `t1` is stable for fewer, since earlier. */
  lemma StableWeaken<K, V, L>(s: Snapshot<K, V, L>, t0: nat, t1: nat, h0: nat, h1: nat,
                              behaviour: (L, map<K, V>) -> seq<Command<K, V, L>>)
    requires StableIn(s, t1, h1, behaviour) && t0 <= t1 && h0 <= h1
    ensures StableIn(s, t0, h0, behaviour)
  {
    forall h | 0 <= h < h0 && h !in s.cancelled
      ensures Notified(s.trace, t0, h, s.listeners[h], s.value)
    {
      var k :| t1 <= k < |s.trace| && CallOf(s.trace[k], h, s.listeners[h], s.value);
    }
  }

  /** A sweep step that calls the listener of the slot with handle `h`, which the sweep had not reached. */
  lemma CallsNotify<K, V, L>(t1: seq<Event<K, V, L>>, t2: seq<Event<K, V, L>>, from: nat, value: map<K, V>,
                             bound: nat, h: nat, l: L, n: nat, next: nat)
    requires from <= |t1| && Calls(t1, from, value, bound) && NoSubmit(t1, from)
    requires bound <= h < next
    requires t1 + [Notify(h, l, value, n)] <= t2 && NoNotify(t2, |t1| + 1)
    ensures Calls(t2, from, value, next)
  {
    forall a, b | from <= a < b < |t2| && t2[a].Notify? && t2[b].Notify?
      ensures t2[a].handle < t2[b].handle
    {
      assert t2[a] == t1[a];
      if b < |t1| {
        assert t2[b] == t1[b];
      } else {
        assert t2[b] == Notify(h, l, value, n);
      }
    }
    forall a, b | from <= a < b < |t2| && t2[a].Submit?
      ensures !t2[b].Notify?
    {
      assert |t1| <= a;
    }
  }

  /** A sweep step that skips a slot calls nobody. */
  lemma CallsSkip<K, V, L>(t: seq<Event<K, V, L>>, from: nat, value: map<K, V>, bound: nat, next: nat)
    requires Calls(t, from, value, bound) && bound <= next
    ensures Calls(t, from, value, next)
  {
  }

  /** Calling the listener of live slot `i` extends the covered prefix by one. */
  lemma CoveredNotify<K, V, L>(s1: seq<Slot<L>>, s2: seq<Slot<L>>, i: nat, t1: seq<Event<K, V, L>>, t2: seq<Event<K, V, L>>,
                               from: nat, value: map<K, V>, bound: nat, cancelled: set<nat>)
    requires Covered(s1, i, t1, from, value) && Grown(s1, s2, bound, cancelled)
    requires from <= |t1| && t1 <= t2
    requires i < |s1| && Live(s1[i]) && |t1| < |t2| && CallOf(t2[|t1|], s1[i].handle, s1[i].ref.value, value)
    ensures Covered(s2, i + 1, t2, from, value)
  {
    forall j | 0 <= j < i + 1 && j < |s2| && Live(s2[j])
      ensures Notified(t2, from, s2[j].handle, s2[j].ref.value, value)
    {
      assert s2[j] == s1[j];
      if j < i {
        NotifiedGrows(t1, t2, from, s1[j].handle, s1[j].ref.value, value);
      }
    }
  }

  /** Skipping a tombstone keeps every live slot below the next index covered. */
  lemma CoveredSkip<K, V, L>(slots: seq<Slot<L>>, i: nat, t: seq<Event<K, V, L>>, from: nat, value: map<K, V>)
    requires Covered(slots, i, t, from, value) && i < |slots| && !Live(slots[i])
    ensures Covered(slots, i + 1, t, from, value)
  {
  }

  /** A listener that set nothing keeps the sweep's listeners quiet. */
  lemma AllQuietNotify<K, V, L>(t1: seq<Event<K, V, L>>, t2: seq<Event<K, V, L>>, from: nat,
                                behaviour: (L, map<K, V>) -> seq<Command<K, V, L>>, h: nat, l: L, v: map<K, V>, n: nat)
    requires AllQuiet(t1, from, behaviour) && Quiet(behaviour(l, v))
    requires t1 + [Notify(h, l, v, n)] <= t2 && NoNotify(t2, |t1| + 1)
    ensures AllQuiet(t2, from, behaviour)
  {
    forall k | from <= k < |t2| && t2[k].Notify?
      ensures Quiet(behaviour(t2[k].listener, t2[k].value))
    {
      if k < |t1| {
        assert t2[k] == t1[k];
      }
    }
  }

  /**
   * Where a sweep over `s0` stands once it stopped at index `i`: every slot
   * of `s0` that is still live was called, or every call came before it.
   */
  lemma StoppedBefore<K, V, L>(s0: seq<Slot<L>>, slots: seq<Slot<L>>, i: nat, next: nat,
                               t: seq<Event<K, V, L>>, from: nat, value: map<K, V>)
    requires Increasing(s0) && i <= |s0| <= |slots|
    requires forall j :: 0 <= j < |s0| ==> slots[j].handle == s0[j].handle
    requires Covered(slots, i, t, from, value) && Calls(t, from, value, Reach(s0, i, next))
    ensures forall j :: 0 <= j < |s0| && Live(slots[j]) ==>
              || Notified(t, from, slots[j].handle, slots[j].ref.value, value)
              || (forall k :: from <= k < |t| && t[k].Notify? ==> t[k].handle < slots[j].handle)
  {
    forall j | i <= j < |s0|
      ensures Reach(s0, i, next) <= slots[j].handle
    {
      if i < j {
        assert s0[i].handle < s0[j].handle;
      }
    }
  }

  /**
   * How far a sweep over the list of `s0` has come in state `s`, when it
   * is about to look at index `i`: the list of `s0` is in subscription
   * order, the sweep's listener calls only extended the state, `stopped`
   * says whether a listener's `set` was accepted, the listener calls so far
   * are those `Calls` allows below slot `i`, every live slot below `i` was
   * called, and, unless the sweep was stopped, every listener called set
   * nothing.
   */
  ghost predicate SweepProgress<K(!new), V(!new), L(!new)>(i: nat, s0: Snapshot<K, V, L>, s: Snapshot<K, V, L>, stopped: bool,
                                         behaviour: (L, map<K, V>) -> seq<Command<K, V, L>>)
  {
    && i <= |s0.slots| && Increasing(s0.slots) && (forall j :: 0 <= j < |s0.slots| ==> s0.slots[j].handle < s0.nextHandle)
    && Extends(s0, s)
    && (stopped <==> !NoSubmit(s.trace, |s0.trace|))
    && Calls(s.trace, |s0.trace|, s0.value, Reach(s0.slots, i, s0.nextHandle))
    && Covered(s.slots, i, s.trace, |s0.trace|, s0.value)
    && (!stopped ==> AllQuiet(s.trace, |s0.trace|, behaviour))
    && s0.settled == s0.value
    && (stopped ==> Stops(s0.value, s.settled, behaviour))
    && UnsubscribesKept(s.trace, |s0.trace|, s0.cancelled.Keys, s.cancelled.Keys, s0.nextHandle, behaviour)
  }

  /** A sweep starts with nothing done. */
  lemma ProgressStart<K(!new), V(!new), L(!new)>(s0: Snapshot<K, V, L>, behaviour: (L, map<K, V>) -> seq<Command<K, V, L>>)
    requires Increasing(s0.slots) && forall j :: 0 <= j < |s0.slots| ==> s0.slots[j].handle < s0.nextHandle
    requires s0.settled == s0.value
    ensures SweepProgress(0, s0, s0, false, behaviour)
  {
    AppliedSinceNoSubmit(s0.settled, s0.trace, |s0.trace|);
  }

  /**
   * A sweep step that calls the listener of live slot `i`, and so reaches
   * the state `s2`: the sweep is stopped exactly when the listener's calls
   * included an accepted `set`, and otherwise that listener set nothing.
   */
  lemma ProgressNotify<K(!new), V(!new), L(!new)>(i: nat, s0: Snapshot<K, V, L>, s1: Snapshot<K, V, L>, s2: Snapshot<K, V, L>,
                                stopped: bool, behaviour: (L, map<K, V>) -> seq<Command<K, V, L>>)
    requires SweepProgress(i, s0, s1, false, behaviour) && i < |s0.slots| && Live(s1.slots[i])
    requires Extends(s1, s2)
    requires s1.trace + [Notify(s1.slots[i].handle, s1.slots[i].ref.value, s1.value, s1.nextHandle)] <= s2.trace
    requires NoNotify(s2.trace, |s1.trace| + 1)
    requires stopped <==> !NoSubmit(s2.trace, |s1.trace|)
    requires stopped <==> !Quiet(behaviour(s1.slots[i].ref.value, s1.value))
    requires s2.settled == ApplyAll(s1.settled, SetPatches(behaviour(s1.slots[i].ref.value, s1.value)))
    requires s2.cancelled.Keys == s1.cancelled.Keys + Cancels(behaviour(s1.slots[i].ref.value, s1.value), s1.nextHandle)
    requires s1.slots[i].handle !in s1.cancelled
    ensures SweepProgress(i + 1, s0, s2, stopped, behaviour)
  {
    var slot := s1.slots[i];
    assert slot == s0.slots[i];
    var bound, next := Reach(s0.slots, i, s0.nextHandle), Reach(s0.slots, i + 1, s0.nextHandle);
    assert bound < next by {
      if i + 1 < |s0.slots| {
        assert s0.slots[i].handle < s0.slots[i + 1].handle;
      }
    }
    ExtendsTransitive(s0, s1, s2);
    NoSubmitSplit(s1.trace, s2.trace, |s0.trace|);
    CallsNotify(s1.trace, s2.trace, |s0.trace|, s0.value, bound, slot.handle, slot.ref.value, s1.nextHandle, next);
    CoveredNotify(s1.slots, s2.slots, i, s1.trace, s2.trace, |s0.trace|, s0.value, s1.nextHandle, s2.cancelled.Keys);
    if !stopped {
      AllQuietNotify(s1.trace, s2.trace, |s0.trace|, behaviour, slot.handle, slot.ref.value, s0.value, s1.nextHandle);
    } else {
      AppliedSinceNoSubmit(s0.settled, s1.trace, |s0.trace|);
      assert !Quiet(behaviour(slot.ref.value, s0.value))
             && s2.settled == ApplyAll(s0.value, SetPatches(behaviour(slot.ref.value, s0.value)));
    }
    HonouredNotify(s1.trace, s2.trace, |s0.trace|, s1.cancelled.Keys, s2.cancelled.Keys, behaviour,
                   slot.handle, slot.ref.value, s0.value, s1.nextHandle);
    WarrantedNotify(s1.trace, s2.trace, |s0.trace|, s0.cancelled.Keys, s1.cancelled.Keys, s2.cancelled.Keys, behaviour,
                    slot.handle, slot.ref.value, s0.value, s1.nextHandle);
    PromptNotify(s1.trace, s2.trace, |s0.trace|, s1.cancelled.Keys, behaviour,
                 slot.handle, slot.ref.value, s0.value, s1.nextHandle);
    IssuedBeforeNotify(s1.trace, s2.trace, |s0.trace|, s0.nextHandle, slot.handle, slot.ref.value, s0.value, s1.nextHandle);
  }

  /** A sweep step that skips tombstone `i` changes nothing. */
  lemma ProgressSkip<K(!new), V(!new), L(!new)>(i: nat, s0: Snapshot<K, V, L>, s: Snapshot<K, V, L>,
                              behaviour: (L, map<K, V>) -> seq<Command<K, V, L>>)
    requires SweepProgress(i, s0, s, false, behaviour) && i < |s0.slots| && !Live(s.slots[i])
    ensures SweepProgress(i + 1, s0, s, false, behaviour)
  {
    CallsSkip(s.trace, |s0.trace|, s0.value, Reach(s0.slots, i, s0.nextHandle), Reach(s0.slots, i + 1, s0.nextHandle));
    CoveredSkip(s.slots, i, s.trace, |s0.trace|, s0.value);
  }

  /**
   * What a sweep leaves behind that stopped at index `i`, or ran to the end
   * of the list of `s0`: only slots of `s0` were called, every slot of `s0`
   * still live was called unless the sweep stopped before it, and a sweep
   * that was not stopped called every one of them, and only listeners that
   * set nothing.
   */
  lemma ProgressEnd<K(!new), V(!new), L(!new)>(i: nat, s0: Snapshot<K, V, L>, s: Snapshot<K, V, L>, stopped: bool,
                             behaviour: (L, map<K, V>) -> seq<Command<K, V, L>>)
    requires SweepProgress(i, s0, s, stopped, behaviour) && (stopped || i == |s0.slots|)
    ensures Calls(s.trace, |s0.trace|, s0.value, s0.nextHandle)
    ensures forall j :: 0 <= j < |s0.slots| && Live(s.slots[j]) ==>
              || Notified(s.trace, |s0.trace|, s.slots[j].handle, s.slots[j].ref.value, s0.value)
              || (stopped && forall k :: |s0.trace| <= k < |s.trace| && s.trace[k].Notify? ==> s.trace[k].handle < s.slots[j].handle)
    ensures !stopped ==> Covered(s.slots, |s0.slots|, s.trace, |s0.trace|, s0.value) && AllQuiet(s.trace, |s0.trace|, behaviour)
  {
    StoppedBefore(s0.slots, s.slots, i, s0.nextHandle, s.trace, |s0.trace|, s0.value);
    CallsSkip(s.trace, |s0.trace|, s0.value, Reach(s0.slots, i, s0.nextHandle), s0.nextHandle);
  }

  /**
   * A sweep over the compacted list `sm` that ran to its end leaves the
   * value stable for every subscription made before handle `h0` that is not
   * unsubscribed: the compacted list held a live slot for it, the slot is
   * still live unless its unsubscribe function was called, and so it was
   * called.
   */
  lemma SweptStable<K, V, L>(sm: seq<Slot<L>>, lm: seq<L>, cm: set<nat>, s: Snapshot<K, V, L>, t0: nat, h0: nat,
                             behaviour: (L, map<K, V>) -> seq<Command<K, V, L>>)
    requires SlotsInvariant(sm, lm, false, cm) && h0 <= |lm| && lm <= s.listeners && cm <= s.cancelled.Keys
    requires Grown(sm, s.slots, |lm|, s.cancelled.Keys)
    requires Covered(s.slots, |sm|, s.trace, t0, s.value) && AllQuiet(s.trace, t0, behaviour)
    ensures StableIn(s, t0, h0, behaviour)
  {
    forall h | 0 <= h < h0 && h !in s.cancelled
      ensures h < |s.listeners| && Notified(s.trace, t0, h, s.listeners[h], s.value)
      ensures Quiet(behaviour(s.listeners[h], s.value))
    {
      assert Slot(h, Some(lm[h])) in sm;
      var i :| 0 <= i < |sm| && sm[i] == Slot(h, Some(lm[h]));
      assert Live(s.slots[i]) && s.slots[i] == sm[i];
      assert s.listeners[h] == lm[h];
      var k :| t0 <= k < |s.trace| && CallOf(s.trace[k], h, lm[h], s.value);
    }
  }
}
